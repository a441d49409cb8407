# Relayer verification

A Dafny model of the money-moving parts of the relayer, and proofs about every
run of them: the deposit bridge (`cmd/serve`), the gasless sponsor
(`cmd/gasless`), and the leases, sequence numbers, cursors, fees and rate limit
both rest on. `dafny verify dfyconfig.toml` checks the project.

## What is modelled

| files | what |
|---|---|
| `Ledger` | the network: queued and landed transactions, closing ledgers, what RPC may truthfully answer |
| `Resolution` | what a retry does about a transfer whose outcome is unknown |
| `ForwardTable`, `ForwardStore` | the `forwards` rows, the store's statements on them, and the store as a class |
| `Bridge` | watcher workers, the retry worker, both tables and the network as one event machine |
| `BridgeProof`, `BridgeTheorems` | the invariant every event keeps, and what follows for every run |
| `BridgeRouting` | where a deposit goes, and what it pays, whatever the timing |
| `BridgeOutcomes`, `BridgeProgress` | what each answer leaves on a row, and that every deposit can be brought to its end |
| `BridgeBudget` | the retry budget: what is charged in a run, and what never is |
| `BridgeStore` | every event of the machine is one of the store's statements |
| `BridgeLag`, `BridgeRange`, `BridgeCeiling` | the exact conditions for exclusive ownership, single payment, final rows and the retry ceiling, and the runs that break them |
| `Forwarder`, `ForwarderRuns` | the forwarder's own loops and branches: they take only the machine's steps, and a whole path is part of one run |
| `FeeBump`, `Fees` | the fee-bump bid, the reservation, the quote and the price guard |
| `SponsorTable` | `sponsored_transactions` and its caps |
| `Sponsor` | submitters, the resolver and the network as an event machine |
| `SponsorProof`, `SponsorTheorems` | the invariant every event keeps, and what follows for every run |
| `SponsorOutcomes` | what each reply and answer leaves on a record, and that every request can be brought to its end |
| `SponsorPatience` | the exact conditions for honest records and spending within the caps |
| `ForwardExposure` | a run that reaches the bound on failed forwards |
| `Submitter`, `SubmitterRuns` | `Run`, `attempt` and `send` as loops, their bids; they take only the machine's steps, and a whole path is part of one run |
| `Channels` | the lease table as a class; lease and sequence safety over every run |
| `Sequencer` | the pool's in-memory sequence numbers |
| `DepositKeys`, `Watcher` | deposit keys, and the cursor discipline of one pool's watcher |
| `RateLimiter` | the token bucket with eviction against one that never evicts |

In both machines a store call is one atomic event with three possible ends:
committed and answered, committed but answered with an error, or not committed.
RPC answers are arbitrary but truthful about the modelled ledger. A crash drops
everything held in memory. A theorem about `Reachable` states therefore covers
every interleaving of workers, lost replies, crashes and ledgers. A transaction
stands for its own hash. Time is an integer, constants are parameters, and
`Bridge.DEPLOYED` and `Sponsor.Deployed` give the ones in the code.

`Forwarder`, `Submitter` and `Watcher` close the gap between the machines and the
Go code: they keep the loops and branches of the source, let the rest of the
world change arbitrarily between two calls, and prove that what was done is a
run of the machine, that each call is the one the answers make, and what the row,
the record or the cursor is then.

### Assumptions

- One `cmd/serve` process with one sequential retry worker.
- `ERROR` and `TRY_AGAIN_LATER` mean the transaction was not queued.
- Ledger close times strictly increase. A transaction lands in a ledger closing
  no later than its max time and no earlier than the validity before it, and is
  charged at most its bid.
- Every row write gets an `updated_at` later than the one it replaces.
- A worker's store write commits before its work deadline or not at all.
- For single payment in the bridge, RPC reports both ends of its retained range,
  and a claim's reply plus the work deadline ends no later than the first instant
  at which the retry worker may take the row.
- For honest records in the sponsor, a submitter writes each hash within
  `staleAfter` of its last write to the record, and the range RPC answers from
  covers what the resolver looks up. The caps themselves, one run per request and
  one transaction per request need neither.
- Twice the inclusion cap plus a 32-bit fee fits in 64 bits.

### Where a property needs a condition

Most of these assumptions are exact: the property holds if and only if they do.

- Rebuilding a transfer that RPC does not find is safe exactly when RPC reports
  both `oldest` and `latest`. The code also rebuilds when either is 0
  (`RebuildSafeIffRangeReported`), and then a run pays one deposit twice
  (`UnreportedRangePaysTwice`).
- The work deadline starts when the claim's reply arrives, the cutoff when the
  claim commits. Ownership is exclusive exactly when the slowest reply plus the
  deadline stay within the cutoff (`ExclusiveIffLagFits`). One instant more is
  still harmless, because a row write needs a later `updated_at`; beyond that a
  run pays one deposit twice (`LateReplyPaysTwice`), and a final row can be
  rewritten (`FinalStaysIffHoldFits`). `PaidOnceIff` puts both conditions together.
- The retry ceiling stands a longer hold, by one instant per retry, and no more
  (`BudgetHoldsIff`, `PassesCeiling`).
- Before the first cursor is saved, a poll starts over from the latest payment,
  so a payment whose insert failed is passed for good (`RestartSkipsNothingIff`,
  `LostAcrossRestart`).
- The resolver decides from a record as it listed it and writes it as it then
  stands, comparing nothing; and it rejects on a "not found" without reading RPC's
  range. Statuses are honest and a wallet's charges stay within its cap exactly
  when every hash is written within `staleAfter` of the write before it and RPC's
  range covers every lookup (`HonestIff`, `WithinCapIff`); every transaction is on
  a record exactly under the first of the two (`AccountedIffPatient`). Otherwise a
  request is rejected, or its record set back to an older hash, while its
  transaction lands; and since that frees a spent reservation, the overrun has no
  bound. With the deployed constants the wait for a channel and the resends leave
  80 seconds for the calls before the first hash and 55 for those between two
  (`DeployedIsHonestIff`); the poll and the last write may take any time. For one
  answer, the rejection is right exactly when the range covers the transaction
  (`RejectRightIffCovered`).
- The user's fee is priced at the first inclusion fee. In XLM it covers a raised
  bid exactly when that bid is within the margin, up to rounding
  (`LaterBidCoveredIff`), which a doubled bid without resource fee never is under a
  margin below 99.5 per cent (`DoubledBidUncovered`).
- The stored channel sequence never runs ahead exactly when no `Sync` changes the
  address of a row that holds a token, which its statement does not check
  (`NeverAheadIffUnmoved`, `MovedRowRunsAhead`).
- The pool's sequence numbers strictly increase exactly when every seeding sees the
  account at the last number drawn; while Horizon never goes back, a number is
  handed out twice exactly when one does not (`IncreasingIffSeedsFresh`,
  `RepeatsIffSeedStale`). `RecordSubmission`'s check is what makes that harmless
  (`OneDepositPerTransaction`).
- The fee-bump bid is the least allowed exactly when the inclusion fee divides
  evenly among the operations (`BidMinimalIffEven`); the comment in feebump.go
  says it bids exactly what the protocol requires.
- `MarkForwardDone` and `MarkSwept` keep one transaction from belonging to two rows
  exactly when no other row holds it; they do not check (`SeparateIff`).
- `Retry-After` is too short exactly when the truncated wait is a whole number of
  seconds and a fraction of a nanosecond was cut off (`RetryAfterIsEnoughIff`,
  `RetryAfterTooSoon`).

## Model

| member | source | states |
|---|---|---|
| `Resolution.Classify` | internal/service/forwarder/forwarder.go:1224-1274 | exactly a bad sequence number is contention, exactly a low fee asks for a higher one, exactly an unlisted code is final, and a fee-bump counts as its inner result |
| `Resolution.RebuildIsSafe` | internal/service/forwarder/forwarder.go:581-650 | when a rebuild is allowed the recorded transaction has moved no funds and never can |
| `Resolution.RebuildSafeIffRangeReported` | internal/service/forwarder/forwarder.go:620-664 | on a "not found", a rebuild is safe in every network consistent with the answer if and only if RPC reported both ends of its range |
| `Resolution.PaidUnseen` | internal/service/forwarder/forwarder.go:640-664 | without both ends there is a network in which the transfer was paid and truthfully not found |
| `ForwardTable.NewRow` | internal/store/store.go:233-243 | a recorded deposit names its memo, pool, amount, asset and landing time, and is untouched: pending, uncharged, nothing submitted, both times equal |
| `ForwardStore.StatementEffects` | internal/store/store.go:230-422 | whatever the statement, one row changes; only MarkForwardFailed charges, and by one; only the four statements about it replace an in-flight transaction; a sweep decision is never undone |
| `ForwardStore.SeparateIff` | internal/store/store.go:279-361 | a statement keeps every transaction to one row if and only if it is not a MarkForwardDone or MarkSwept on a transaction another row holds |
| `ForwardStore.Store.InsertForward` | internal/store/store.go:233-243 | inserts exactly when the key is new: an untouched row with the memo, pool, amount, asset and landing time it was given; otherwise changes nothing |
| `ForwardStore.Store.ClaimNewForward` | internal/store/store.go:252-261 | succeeds exactly on a pending row untouched since its insert, and changes only when it was written |
| `ForwardStore.Store.ClaimPendingForward` | internal/store/store.go:267-276 | succeeds exactly on a pending row unchanged since it was read, and changes only when it was written |
| `ForwardStore.Store.RecordSubmission` | internal/store/store.go:343-361 | records exactly when no other row claims the transaction, so no transaction ever belongs to two rows; the outcome columns stay |
| `ForwardStore.Store.MarkForwardDone` | internal/store/store.go:279-290 | the row is done and holds that transaction alone, uncharged; the store stays valid if and only if no other row holds it |
| `ForwardStore.Store.MarkSwept` | internal/store/store.go:310-322 | the row is swept and holds that transaction alone, uncharged; the store stays valid if and only if no other row holds it |
| `ForwardStore.Store.ClearSubmission` | internal/store/store.go:366-376 | the row lets go of its in-flight transaction and keeps status, retries and decision; no other row changes |
| `ForwardStore.Store.MarkSweep` | internal/store/store.go:295-304 | the decision is set, what is in flight stays on the row, nothing is charged; no other row changes |
| `ForwardStore.Store.MarkForwardFailed` | internal/store/store.go:380-390 | exactly one retry is charged and what may be in flight stays on the row; no other row changes |
| `ForwardStore.Store.RequeueForContention` | internal/store/store.go:397-407 | queued with nothing charged and what may be in flight kept; no other row changes |
| `ForwardStore.Store.PermanentlyFail` | internal/store/store.go:412-422 | closed with nothing charged and what may be in flight kept; no other row changes |
| `ForwardStore.Store.FirstOf` | internal/store/store.go:446-462 | finds a row no other comes before in the batch order |
| `ForwardStore.Store.GetPendingRetries` | internal/store/store.go:446-462 | the first 200, or whatever the limit, of the queued rows and the pending ones untouched past the cutoff, in order of retries and age, none twice and none left out while there is room |
| `BridgeStore.EventIsStatement` | internal/service/forwarder/forwarder.go:259-408 | every event of the bridge changes the rows exactly as the one store statement it commits, and not at all if it commits none |
| `BridgeStore.StoreStaysValid` | internal/store/store.go:324-361 | in every reachable state the store is valid, its unchecked statements included |
| `BridgeProof.PerformKeeps` | internal/service/forwarder/forwarder.go:722-932 | every call of a worker keeps its deposit's row, phase and claims in order |
| `BridgeProof.StepKeeps` | internal/service/forwarder/forwarder.go:438-568 | every event of the bridge keeps the invariant |
| `BridgeTheorems.RunKeeps` | internal/service/retry/retry.go:43-70 | every run of the bridge keeps the invariant |
| `BridgeTheorems.AtMostOnePayment` | internal/service/forwarder/forwarder.go:1117-1192 | when RPC reports its ranges, in every reachable state each deposit has at most one outbound payment that landed, credit and recovery counted together |
| `BridgeTheorems.OneDepositPerTransaction` | internal/store/store.go:324-361 | no two rows hold one outbound transaction; when RPC reports its ranges, one that paid a deposit is held by no other row |
| `BridgeTheorems.RecordedOnlyWhenQuiet` | internal/service/forwarder/forwarder.go:1124-1141 | when RPC reports its ranges, a new transfer is recorded only once nothing sent for the deposit has paid or still can |
| `BridgeTheorems.ExclusiveOwnership` | internal/service/forwarder/forwarder.go:269-287 | when the hold ends within the cutoff a watcher worker and the retry worker never both act on a deposit, and neither acts on a final row |
| `BridgeTheorems.RowsTellTheTruth` | internal/service/forwarder/forwarder.go:361-408 | done means a credit to the intent's address landed, swept that the recovery payment did, never both; when RPC reports its ranges it was sent for this deposit and every landed payment of the deposit agrees with the row's decision |
| `BridgeTheorems.DecisionsAreFinal` | internal/store/store.go:279-322 | over any run a sweep decision is never undone and done, swept and failed rows never change |
| `BridgeRouting.RoutesAgree` | internal/service/forwarder/forwarder.go:487-518 | first attempt and retry decide alike, and credit exactly when the asset is accepted, the intent known and the landing in time |
| `BridgeRouting.RoutingHolds` | internal/service/forwarder/forwarder.go:289-327 | over any run after an insert, whatever the timing: everything sent for it pays the inserted amount and asset out of the inserted pool; if the inserted landing time is within an existing intent and the asset accepted, it is never swept and pays only that intent's address; if late or not accepted it is never credited and pays only recovery |
| `BridgeBudget.RetriesCountCharges` | internal/store/store.go:380-422 | over any run the retries column grows by exactly the number of committed charges |
| `BridgeBudget.RetryBudget` | internal/service/forwarder/forwarder.go:465-476 | retries never pass the ceiling, and a row closed at the ceiling had exactly that many charges |
| `BridgeBudget.WaitingIsFree` | internal/service/forwarder/forwarder.go:532-563 | in every reachable state, an answer about a transfer already sent, contention, a claimed transaction, an unknown outcome or a missing trustline charges nothing and leads to no charge |
| `BridgeBudget.CallFails` | internal/service/forwarder/forwarder.go:376-407 | a call that ends in a decision to charge was a failed lookup or write, a transfer that could not be built, or a reported rejection, and none of the waits |
| `BridgeBudget.ChargesAreFailures` | internal/service/forwarder/forwarder.go:1300-1323 | over any run the retries of a deposit are at most the failures that decided a charge, however often it waited; one closed at the ceiling failed at least that often |
| `BridgeLag.ExclusiveIffLagFits` | internal/service/forwarder/forwarder.go:229-234 | ownership is exclusive in every run if and only if reply lag plus deadline fit the cutoff |
| `BridgeLag.LateReplyPaysTwice` | internal/service/forwarder/forwarder.go:269-287 | with a claim reply slower than PaidOnceIff allows, a reachable state has one deposit paid twice |
| `BridgeLag.FinalStaysIffHoldFits` | internal/store/store.go:279-322 | done, swept and failed rows never change in any run if and only if reply lag plus deadline end no later than the first instant at which the retry worker may take the row |
| `BridgeCeiling.BudgetHoldsIff` | internal/service/forwarder/forwarder.go:465-476 | the retry ceiling is never passed in any run if and only if reply lag plus deadline exceed the cutoff by at most the number of retries |
| `BridgeCeiling.PassesCeiling` | internal/service/forwarder/forwarder.go:465-476 | otherwise a reachable state has one charge more than the ceiling |
| `BridgeRange.UnreportedRangePaysTwice` | internal/service/forwarder/forwarder.go:620-664 | with an answer that does not report its range, a reachable state has one deposit paid twice |
| `BridgeRange.PaidOnceIff` | internal/service/forwarder/forwarder.go:229-287 | every deposit is paid at most once in every run if and only if reply lag plus deadline end no later than the first instant at which the retry worker may take the row, and RPC always reports its range |
| `BridgeRange.DeployedFits` | internal/service/forwarder/forwarder.go:229-234 | the deployed constants meet the timing conditions for a reply of up to a minute |
| `BridgeProgress.DepositsCanSettle` | internal/service/forwarder/forwarder.go:440-568 | from every reachable state every deposit not yet final can be brought to its end: recorded under its transfer as done or swept if that landed, else closed at the ceiling, returned, or credited to its intent's address by the one rule, with a payment that landed |
| `BridgeProgress.Pay` | internal/service/forwarder/forwarder.go:722-817 | a worker about to pay can: a transfer no row claims and the network never saw is recorded, sent, landed and settles the row |
| `BridgeOutcomes.AnswerSettles` | internal/service/forwarder/forwarder.go:581-650 | what each getTransaction answer leaves on the row once its statement commits: landed is done or swept under that transaction, a permanent failure closes it, any other failure or an expiry within RPC's range lets go of it, not yet expired waits, older than RPC's history closes it unresolved |
| `BridgeOutcomes.SilenceWaits` | internal/service/forwarder/forwarder.go:583-590 | no answer waits, uncharged, with the transfer kept |
| `BridgeOutcomes.FaultSettles` | internal/service/forwarder/forwarder.go:350-408 | each fault's row: unknown outcomes and lost races wait uncharged, a permanent cause closes the row, charged only on a watcher's credit, anything else is charged; only a watcher's credit is tried again in process |
| `BridgeOutcomes.RecordGoes` | internal/service/forwarder/forwarder.go:1117-1145 | only a recorded transaction, unclaimed and acknowledged, goes on to be sent, and is what the row says is in flight |
| `BridgeOutcomes.SendGoes` | internal/service/forwarder/forwarder.go:1147-1192 | what each reply to sendTransaction leads to: accepted or unknown may be queued and stays recorded; a rejection is let go of and, if for its fee, repriced on the same sequence number and max time while retries remain |
| `BridgeOutcomes.PollGoes` | internal/service/forwarder/forwarder.go:1196-1216 | a landed transfer settles the row, one that failed in its ledger is let go of, one not seen is kept |
| `BridgeOutcomes.RouteGoes` | internal/service/forwarder/forwarder.go:465-518 | a retry closes at the ceiling first, then finishes a sweep; an asset not accepted, an unknown memo and a late landing are returned, a failed lookup is charged, anything else pays the intent's address |
| `BridgeOutcomes.SweepGoes` | internal/service/forwarder/forwarder.go:1288-1295 | a sweep sends only once its decision is known to be on the row |
| `Forwarder.WatchCallIsEvent` | internal/service/forwarder/forwarder.go:259-408 | each call on a watcher worker's path is the bridge event of that name, with the same row and phase, and leads to a reachable state |
| `Forwarder.RetryCallIsEvent` | internal/service/forwarder/forwarder.go:438-568 | each call on a retry's path is the bridge event of that name, with the same row and phase, and leads to a reachable state |
| `ForwarderRuns.PathIsRun` | internal/service/forwarder/forwarder.go:259-568 | a whole path of either worker, with any events of others between its calls, is part of one run of the bridge and ends with the path's row and phase, while ownership is exclusive |
| `ForwarderRuns.ForeignRunKeeps` | internal/service/forwarder/forwarder.go:269-287 | between two calls of a worker that may act, no run of other events touches its row or phase |
| `Forwarder.WorldsDecide` | internal/service/forwarder/forwarder.go:259-568 | two workers that start alike, get the same answers at each call and bid the same fees make the same calls and leave the same rows |
| `Forwarder.TraceIsPath` | internal/service/forwarder/forwarder.go:259-568 | the calls a worker made, each the one its world's answers make, are a path of the machine |
| `Forwarder.Worker.RecordSubmission` | internal/service/forwarder/forwarder.go:1128-1145 | only a recorded transaction goes on to be sent; it is contention exactly when the reply came and another row claims it, transient when the write may be lost |
| `Forwarder.Worker.SignAndSend` | internal/service/forwarder/forwarder.go:1117-1192 | for every answer sequence the loop stays on the machine's path: accepted and unknown stay recorded, never-queued was cleared, and the outcome columns are untouched |
| `Forwarder.Worker.PollResult` | internal/service/forwarder/forwarder.go:1196-1216 | no fault exactly when RPC saw the transaction land successfully; not seen is an unknown outcome, a failure the fault of its code |
| `Forwarder.Worker.Confirm` | internal/service/forwarder/forwarder.go:786-797 | a transfer seen to fail is forgotten before the failure is reported |
| `Forwarder.Worker.Prepare` | internal/service/forwarder/forwarder.go:752-777 | the max time is the build time plus the validity in whole seconds, or the error is one raised before sending |
| `Forwarder.Worker.BidUp` | internal/service/forwarder/forwarder.go:776-817 | the first fee bids the least inclusion fee, each further one twice the inclusion fee of the one before, at most feeRetries times; a channel's fee-bump pays it twice |
| `Forwarder.Worker.Transfer` | internal/service/forwarder/forwarder.go:722-817 | ends landed and ready to record, or with a fault handled as the machine handles it; the fees bid double; one that cannot be prepared bids nothing |
| `Forwarder.Worker.ForgetSubmission` | internal/service/forwarder/forwarder.go:666-675 | what follows a clear: route on only if it succeeded, reprice, or report the fault |
| `Forwarder.Worker.BeginSweep` | internal/service/forwarder/forwarder.go:1288-1295 | nothing is sent unless the decision was persisted; otherwise the row is charged once |
| `Forwarder.Worker.SweepDeposit` | internal/service/forwarder/forwarder.go:1300-1324 | the row each end of a sweep leaves: swept under its transaction, waiting uncharged, closed as refused, or charged |
| `Forwarder.Worker.Attempts` | internal/service/forwarder/forwarder.go:344-408 | the row the in-process attempts leave: done, waiting uncharged, failed and charged at once on a permanent cause, or charged once after the last; cut off only between two attempts, by the deadline |
| `Forwarder.Worker.ForwardRecorded` | internal/service/forwarder/forwarder.go:259-408 | every path is the machine's, and the row it leaves is a credit's end if the deposit is to be credited, one charge if the lookup failed, and else a sweep's end |
| `Forwarder.Worker.ResolveSubmitted` | internal/service/forwarder/forwarder.go:581-650 | the row each answer leaves: done or swept under the transfer if it landed, closed on a permanent failure, cleared when it failed otherwise or expired within RPC's range, waiting while it can land or RPC is silent, closed unresolved beyond RPC's history; not settled exactly when it was cleared |
| `Forwarder.Worker.Retry` | internal/service/forwarder/forwarder.go:438-568 | every path is the machine's; the row is what ResolveSubmitted leaves, or once that clears the way, what the ceiling, a sweep or one attempt at the credit leaves |
| `FeeBump.BidMeetsRule` | internal/feebump/feebump.go:31-51 | the bid meets CAP-0015's rate rule for any operation count, counts the resource fee once, overshoots the real minimum by less than ops + 1 |
| `FeeBump.BidMinimalIffEven` | internal/feebump/feebump.go:40-51 | the bid is the least meeting the rule if and only if inclusion divides evenly among the operations |
| `FeeBump.SingleOperationBid` | internal/feebump/feebump.go:31-51 | with one operation the bid is twice the inclusion plus the resource fee, and minimal |
| `FeeBump.BidOf` | internal/gasless/sponsor/submitter.go:374-387 | a bid is sealed exactly when inclusion is at least the minimum and the inner fee fits 32 bits, and is then twice the inclusion plus the resource fee |
| `FeeBump.InclusionFeeIsLeast` | internal/gasless/sponsor/submitter.go:347-359 | the first inclusion fee is the least that is at the cap, or at both the minimum and the network's p90 |
| `FeeBump.BidWithinReservation` | internal/gasless/sponsor/submitter.go:361-371 | no bid at an inclusion fee within the cap exceeds the reservation, and exactly the bid at the cap reaches it |
| `Fees.FeeIsLeastCover` | internal/gasless/sponsor/forward.go:208-240 | the fee is the least positive whole amount covering cost times one plus the margin times price |
| `Fees.FeeRefusedIff` | internal/gasless/sponsor/forward.go:208-240 | exactly when a fee is refused: a negative cost, no price where one is needed, or no amount within int64 covers the cost |
| `Fees.FeeMonotone` | internal/gasless/sponsor/forward.go:208-240 | the fee is monotone in cost and price, and if the dearer one fits so does the cheaper |
| `Fees.QuoteIsEnough` | internal/gasless/sponsor/price.go:106-131 | a submission with no higher resource fee and price than quoted is never refused, for any inclusion fee the statistics lead to |
| `Fees.QuoteIsReached` | internal/gasless/sponsor/price.go:106-131 | a submission at the inclusion cap is charged all of its quote, so no lower quote would do |
| `Fees.PricedIff` | internal/gasless/sponsor/submitter.go:241-256 | exactly when a submission is refused: an implausible resource fee, or a fee above the signed maximum |
| `Fees.FeeCoversBids` | internal/gasless/sponsor/submitter.go:241-256 | in any token the user's fee covers, at the price used, the first bid and every later one within the margin, and stays within the signed maximum |
| `Fees.LaterBidCoveredIff` | internal/gasless/sponsor/submitter.go:505-516 | in XLM a raised bid is covered if and only if it is within the margin, to the stroop |
| `Fees.DoubledBidUncovered` | internal/gasless/sponsor/submitter.go:505-516 | with no resource fee and a margin below 99.5 per cent a doubled bid is never covered |
| `Fees.PriceGuard.XlmUsd` | internal/gasless/sponsor/forward.go:93-122 | a returned price is within bounds and is the feed's, or the last good one no older than allowed |
| `SponsorTable.ReserveKeepsCaps` | internal/gasless/sponsor/store.go:141-220 | no reservation, at whatever NOW(), breaks a cap in any rolling window |
| `SponsorTable.UpdateKeepsCaps` | internal/gasless/sponsor/store.go:232-259 | a settlement within its reservation breaks no cap |
| `SponsorTable.CapsBound` | internal/gasless/sponsor/store.go:277-294 | the caps bound a wallet's count, spend and forwards in flight, any day's spend, and failed forwards in any window by failures + in flight - 1 |
| `SponsorTable.QueriesAre` | internal/gasless/sponsor/store.go:130-220 | each cap query is the count, or the spend, of exactly the rows its WHERE clause names |
| `SponsorTable.WindowsAre` | internal/gasless/sponsor/store.go:194-294 | the same within a window that also has an end |
| `SponsorTable.SponsorStore.Aggregate` | internal/gasless/sponsor/store.go:130-133 | the summing loop computes the query's total |
| `SponsorTable.SponsorStore.Reserve` | internal/gasless/sponsor/store.go:141-192 | a repeat is answered with the record on file, the same id with another body is refused, and a new request is recorded, pending and uncharged, exactly when every cap has room; each refusal names the first cap that has none; the caps are kept |
| `SponsorTable.SponsorStore.Finish` | internal/gasless/sponsor/store.go:232-259 | sets status, hash and charge of exactly the named record, never a final one; keeps the caps for a settlement within its reservation |
| `SponsorTable.SponsorStore.SetHash` | internal/gasless/sponsor/store.go:261-270 | sets the hash of exactly the named record, only while pending, and keeps the caps |
| `ForwardExposure.FailureBoundIsMet` | internal/gasless/sponsor/store.go:272-294 | a reachable state of the sponsor attains the failure bound, so with CapsHold it is exact |
| `SponsorProof.StepKeeps` | internal/gasless/sponsor/submitter.go:412-528 | when each hash is written in time every event keeps the records true, as far as RPC covers what it is asked |
| `SponsorProof.StepBase` | internal/gasless/sponsor/submitter.go:412-528 | every event, whatever the resolver's timing, keeps bids and charges within the reservations, the caps, and at most one transaction per request |
| `SponsorProof.ListOk` | internal/gasless/sponsor/resolver.go:19-52 | a patient resolver lists only records to which no further hash will be written |
| `SponsorProof.DecideOk` | internal/gasless/sponsor/resolver.go:128-151 | what is decided from the record as listed is then true of the record as it stands |
| `SponsorTheorems.OneTransactionPerRequest` | internal/gasless/sponsor/submitter.go:444-528 | at most one transaction of a request is ever queued, in every run, whatever the resolver does |
| `SponsorTheorems.StatusesAreHonest` | internal/gasless/sponsor/submitter.go:669-685 | when each hash is written in time and RPC covers the lookups, rejected means nothing landed or can; success and failed name a transaction that landed so, at the fee it was charged |
| `SponsorTheorems.RunsOnceAndStaysFinal` | internal/gasless/sponsor/store.go:231-259 | over any run a final record never changes and a stopped submitter never runs again |
| `SponsorTheorems.OneRunPerRequestId` | internal/gasless/sponsor/submitter.go:118-176 | one request id never starts two runs, whatever the resolver does |
| `SponsorTheorems.CapsHold` | internal/gasless/sponsor/store.go:141-220 | every cap holds in every reachable state and rolling window, whatever the resolver does |
| `SponsorTheorems.ChargedWithinCaps` | internal/gasless/sponsor/store.go:194-220 | on the same conditions what the network actually charged for a wallet's requests, and for those of any rolling day, stays within the caps, rejected requests included |
| `SponsorTheorems.RecordsAccount` | internal/gasless/sponsor/store.go:261-270 | when each hash is written in time every transaction the network accepted is on the record of its request, whatever RPC covers |
| `SponsorPatience.HonestIff` | internal/gasless/sponsor/resolver.go:65-105 | statuses are honest in every run if and only if every hash is written within staleAfter of the write before it and RPC's range covers every lookup |
| `SponsorPatience.AccountedIffPatient` | internal/gasless/sponsor/resolver.go:84-105 | every transaction sent is on its record in every run if and only if every hash is written within staleAfter of the write before it |
| `SponsorPatience.WithinCapIff` | internal/gasless/sponsor/store.go:194-220 | what the network charges for a wallet stays within its cap in every run under exactly the conditions of HonestIff |
| `SponsorPatience.MistakesAddUp` | internal/gasless/sponsor/resolver.go:84-151 | otherwise a reachable state has any number of rejected requests the network charged for; for a late hash, none of them names its transaction |
| `SponsorPatience.DeployedIsHonestIff` | internal/gasless/sponsor/submitter.go:25-47 | with RPC covering the lookups, the deployed constants are honest in every run if and only if the calls before the first hash take at most 80 seconds and those between two hashes at most 55, beside the wait for a channel and the resends |
| `SponsorTheorems.RejectRightIffCovered` | internal/gasless/sponsor/resolver.go:128-151 | rejecting on "not found" is right in every consistent network if and only if RPC's range covers the transaction |
| `SponsorOutcomes.RequestStarts` | internal/gasless/sponsor/submitter.go:118-176 | a created request is one pending record whose submitter first bids the least fee that competes |
| `SponsorOutcomes.SendGoes` | internal/gasless/sponsor/submitter.go:488-528 | what each reply to a send leads to: asked again while busy, another lease at the same fee on a stale sequence, twice the inclusion fee on the same sequence while retries and cap allow |
| `SponsorOutcomes.DecisionSettles` | internal/gasless/sponsor/resolver.go:84-151 | what each answer leaves on the record: settled at its charge if found, rejected if nothing was recorded or it is not found long enough after the last write, left waiting otherwise |
| `SponsorOutcomes.RequestsCanSettle` | internal/gasless/sponsor/resolver.go:65-151 | from every reachable state every open request can be brought to its end: success or failure at the fee charged if its transaction landed, rejection if not |
| `Submitter.CallIsEvent` | internal/gasless/sponsor/submitter.go:412-528 | each call on a run's path, whatever resolvers did to the record, is the sponsor event of that name and leads to a reachable state |
| `SubmitterRuns.PathIsRun` | internal/gasless/sponsor/submitter.go:412-528 | a whole path of a submitter, with any events of others between its calls, is part of one run of the sponsor and ends with the path's slot |
| `Submitter.WorldsDecide` | internal/gasless/sponsor/submitter.go:412-528 | what the store, the pool and RPC answer decides a submitter's every call |
| `Submitter.Runner.SendTransaction` | internal/gasless/sponsor/submitter.go:589-614 | the resend loop reports the first reply that is not TRY_AGAIN_LATER, and gives up unqueued only when cancelled or after the last resend |
| `Submitter.Runner.PollResult` | internal/gasless/sponsor/submitter.go:658-685 | success or failure exactly when RPC saw the transaction land, as it landed and with the fee it was charged |
| `Submitter.Runner.Attempt` | internal/gasless/sponsor/submitter.go:444-528 | one lease: the outcome each reply leads to; a fresh lease is asked for exactly on a stale sequence; a fee refused as too low ends it only after feeRetries doublings in this lease or when twice the inclusion exceeds the cap |
| `Submitter.Runner.Try` | internal/gasless/sponsor/submitter.go:482-497 | one transaction is sealed at twice the inclusion fee plus the resource fee, recorded and sent, or nothing is |
| `Submitter.Runner.Run` | internal/gasless/sponsor/submitter.go:412-442 | every run is a path of the machine and ends by recording one outcome; the first bid is at the given fee, a fee too low is doubled, a stale sequence bids the same again, on at most the allowed leases, and only the last bid may have been accepted |
| `Submitter.FairBids` | internal/gasless/sponsor/submitter.go:412-528 | so bids never fall, none exceeds the reservation, and all but the last were rejected for their fee or sequence number |
| `Channels.Pool.Acquire` | internal/gasless/channels/pool.go:110-154 | leases the least recently used channel in rotation without an unexpired lease, or finds none; a lease never released forces a reload, and the lease carries a sequence only if it may be trusted |
| `Channels.Pool.Release` | internal/gasless/channels/pool.go:174-191 | the holder's release frees the channel at once, with the number it consumed if any and the reload it asks for; a superseded token changes nothing |
| `Channels.Pool.RecordBalance` | internal/gasless/channels/pool.go:193-216 | in rotation exactly when the balance suffices, leases and sequences untouched, a retired channel left alone |
| `Channels.Pool.Sync` | internal/gasless/channels/pool.go:76-108 | matches the table to the configured addresses and retires the rest; a new address is put in rotation without a sequence, an old one keeps its own; leases are untouched |
| `ChannelSafety.StepKeeps` | internal/gasless/channels/pool.go:80-191 | every event on the lease table keeps leases exclusive, and sequences behind the chain unless it moves a leased row |
| `ChannelSafety.OneLeasePerChannel` | internal/gasless/channels/pool.go:110-154 | in every reachable state a channel has at most one unexpired lease, whatever Sync does |
| `ChannelSafety.TakeoverReloads` | internal/gasless/channels/pool.go:110-154 | taking over an unreleased lease, its holder crashed or slow, forces a reload |
| `ChannelSafety.AcquirableIff` | internal/gasless/channels/pool.go:110-154 | a channel can be leased exactly when it is in rotation and bears no unexpired lease |
| `ChannelSafety.NextLease` | internal/gasless/channels/pool.go:174-191 | a released channel can be leased at once, building on the number the release consumed or left unused, or on a reload if the outcome is unknown |
| `ChannelSafety.LateReleaseIsInert` | internal/gasless/channels/pool.go:174-191 | a holder whose lease was taken over had let it expire, and its release changes no row |
| `ChannelSafety.NeverAheadIffUnmoved` | internal/service/forwarder/forwarder.go:830-931 | the stored sequence never exceeds the account's, and nothing is built beyond its next number, in every run if and only if no Sync changes the address of a row that holds a token |
| `ChannelSafety.MovedRowRunsAhead` | internal/gasless/channels/pool.go:80-108 | a reachable state in which a row moved under its lease ends ahead with no reload asked for, released as consumed or as unused |
| `Sequencer.ConsecutiveWithoutResync` | internal/service/forwarder/sequence.go:67-86 | between resyncs the numbers handed out are consecutive |
| `Sequencer.ResyncReads` | internal/service/forwarder/sequence.go:67-96 | whatever was drawn before, the draw after a resync is one past Horizon's number, and counting goes on from there |
| `Sequencer.IncreasingIffSeedsFresh` | internal/service/forwarder/sequence.go:67-112 | over every history the numbers strictly increase if and only if every seeding sees the account at the last number drawn, or past it |
| `Sequencer.RepeatsIffSeedStale` | internal/service/forwarder/sequence.go:88-112 | over every history in which Horizon never goes back, a number is handed out twice if and only if some seeding sees the account short of the last number drawn |
| `Sequencer.PoolSequencer.Next` | internal/service/forwarder/sequence.go:73-86 | hands out the next number in memory, or one past Horizon's when unseeded, and counts on; touches no other pool |
| `Sequencer.PoolSequencer.Resynced` | internal/service/forwarder/sequence.go:91-96 | drops that pool's position and no other's |
| `DepositKeys.ValueOfDecimal` | internal/service/watcher/watcher.go:385-385 | a formatted number reads back as itself, for every number |
| `DepositKeys.ParseOfDecimal` | internal/service/watcher/watcher.go:381-385 | parsing a formatted 63-bit number gives it back |
| `DepositKeys.KeyRecoversHash` | internal/service/forwarder/forwarder.go:1348-1359 | the sweep's cut at ":" recovers the transaction hash from any key |
| `DepositKeys.KeyIs` | internal/service/watcher/watcher.go:370-386 | a transaction's only operation is keyed by the hash itself, and an ID that is no number is kept whole |
| `DepositKeys.PaymentKeyIs` | internal/service/watcher/watcher.go:370-386 | one of several operations is keyed by the hash and its place in decimal |
| `DepositKeys.KeysEqualIff` | internal/service/watcher/watcher.go:370-386 | two keys are equal if and only if the hashes are and, in a transaction of several operations, so are the places |
| `DepositKeys.KeysAreInjective` | internal/service/watcher/watcher.go:370-386 | distinct payment operations get distinct keys, with the operation index laid out as in SEP-0035 |
| `Watcher.HorizonFeedOk` | internal/service/watcher/watcher.go:377-386 | a feed of distinct operations is ordered and has distinct keys |
| `Watcher.StartOf` | internal/service/watcher/watcher.go:192-199 | a page starts at the first record past the cursor |
| `Watcher.PoolWatcher.SaveCursor` | internal/service/watcher/watcher.go:388-394 | the cursor moves exactly when the write commits, never back, and never the first one saved |
| `Watcher.PoolWatcher.Handle` | internal/service/watcher/watcher.go:243-314 | success means the payment has its own row; the cursor is then saved unless a new payment was not handed to a worker, and never on an error |
| `Watcher.PoolWatcher.Step` | internal/service/watcher/watcher.go:203-215 | going on to the next record means everything read so far is recorded |
| `Watcher.PoolWatcher.Page` | internal/service/watcher/watcher.go:191-216 | a page keeps every payment between the first saved cursor and the current one recorded, and reads all of its records when nothing goes wrong |
| `Watcher.PoolWatcher.Poll` | internal/service/watcher/watcher.go:175-224 | no deposit is lost: any poll, with any failures and stops, is a run of the machine, after which each payment since the first saved cursor has its own row or is still ahead of the next poll; when nothing goes wrong each request gets a page further and the cursor is saved past it |
| `Watcher.RestartSkipsNothingIff` | internal/service/watcher/watcher.go:175-224 | over every run of polls, failures, stops and restarts from here on, no payment is passed unrecorded if and only if a cursor has been saved |
| `Watcher.LostAcrossRestart` | internal/service/watcher/watcher.go:180-187 | two polls of a new pool after which the first payment is unrecorded and the cursor saved past it |
| `RateLimiter.Limiter.Allow` | internal/httpx/limit.go:76-100 | answer and wait are those of a limiter that never evicts, in every history |
| `RateLimiter.Limiter.Lookup` | internal/httpx/limit.go:82-91 | finding or making the key's bucket changes no other key's answer, and idle buckets go exactly when the table is full |
| `RateLimiter.Limiter.EvictIdle` | internal/httpx/limit.go:102-111 | drops exactly the buckets idle past a full refill |
| `RateLimiter.IdleIsFull` | internal/httpx/limit.go:102-111 | a bucket idle that long reads full from then on |
| `RateLimiter.ServedAgrees` | internal/httpx/limit.go:78-111 | serving a request keeps the evicting table in agreement with the never-evicting one |
| `RateLimiter.AdmittedWithinRate` | internal/httpx/limit.go:56-100 | from any moment on a key is admitted at most burst plus rps times the elapsed time, and never if burst is below one |
| `RateLimiter.FirstBurstAdmitted` | internal/httpx/limit.go:80-95 | a key's first burst requests are all admitted, so the bound is met |
| `RateLimiter.WaitIsTight` | internal/httpx/limit.go:76-100 | a refused key that stays quiet is admitted after the wait, refused before it, and at it exactly when nothing was cut off |
| `RateLimiter.ToldWhenAdmitted` | internal/httpx/limit.go:76-100 | the wait a refused key is told is when it is next admitted, whatever other keys ask in between |
| `RateLimiter.RefusalCostsNothing` | internal/httpx/limit.go:93-99 | a refused request leaves the key what it would have had without it |
| `RateLimiter.AdmissionCostsOne` | internal/httpx/limit.go:93-99 | an admitted request costs one token of what there was, up to what has been earned back |
| `RateLimiter.FullIsTight` | internal/httpx/limit.go:102-111 | an idle bucket is dropped no sooner than an empty one has refilled, and is full at any later moment |
| `RateLimiter.RetryAfterIsEnoughIff` | internal/httpx/limit.go:132-136 | coming back at Retry-After is admitted if and only if the wait is no whole number of seconds, zero, or exact |
| `RateLimiter.RetryAfterTooSoon` | internal/httpx/limit.go:132-136 | a bucket for which Retry-After is too short |

## Left out

- HTTP handlers, auth, metrics, logging, health and preflight checks, configuration, migrations, balance monitoring: no invariant of their own.
- The fee of an outbound transfer beside its inclusion fee: the simulated resource fee and the buffer are one number that does not change between bids.
- XDR building, signing, hashing, key derivation, memo parsing: library code; a transaction stands for its hash, and the recovery payment's memo is modelled only through the deposit key.
- Several `cmd/serve` processes on one database: `pending_retry` rows are not claimed, so the deposit guarantees are stated for one.
- Rows without a receiving pool, a landing time or a `submitted_until`: compatibility branches.
- That every deposit and request does settle: it depends on the network and the clock; that each always can is proved (`DepositsCanSettle`, `RequestsCanSettle`).
- Intent statuses: the bridge lets any event set them, since no decision reads them; `CompleteIntent`, `FailIntent` and `ExpireStaleIntents` are not modelled one by one.
- Free-text error columns and the expected-amount warning.
- The send lock and the mutexes: calls under them are atomic events; `RecordSubmission`'s check and write are one statement.
- Channel leases inside the bridge and sponsor machines: both draw an arbitrary source and sequence number, and the leases have a machine of their own (`ChannelSafety`).
- `FOR UPDATE SKIP LOCKED`: `Acquire` is one atomic statement, so a row locked by a concurrent one is not skipped.
- The limit of 100 records per resolver tick: any number may be listed, and a listed record may be decided more than once, as several resolvers would.
- `withFee`, `setRootFeeAmount`, `parseForward`, `ForwardLoss` and its alert, and the price cache: easy or pure I/O.
- Prices and token-bucket levels as IEEE floats: modelled as real numbers.
- Forwarder.Worker.DecideAtOnce: does not say which lookup result it stands for, because the decisions it serves need none.
