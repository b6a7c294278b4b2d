# Verified model of the threefold explorer's reservation core

This project models the parts of the explorer that handle reservations, their money and their
overlay networks, and proves what their designers rely on:

- **Money.** All reservations of a customer share one on-chain escrow account; what belongs to whom
  is only known from transaction memos. `Payout`, `Ledger`, `Horizon` and `Settlement` model the
  split of a price, the transaction history, the paged reading of a balance, and the payout batch.
  `Escrow` is the select loop as a state machine in which payments, the clock and the handlers can
  come between any two steps. A history is whatever it can do, a run is a history that keeps two
  guards which the code does not check. `EscrowSafety` proves what every history and every run keeps,
  and `EscrowTheorems` what follows: money is conserved per reservation, refunds go back to who paid,
  what is marked as paid is covered, and each payout is accounted for in every history; under the
  guards nothing is overdrawn, reservations are settled once, and the account covers all of them
  together. `EscrowGuards` states exactly when a step that breaks a guard goes wrong, and constructs
  runs in which it does. `Endless` says when reading a balance never ends. `Stellar` is the service
  itself, a class each of whose methods leads from the end of a history of that machine to the end of
  another one, and of a run to that of a run exactly as far as its contract says.
- **Lifecycle.** `Workloads`, `Reports` and `Pipeline` model what a reservation consists of, the
  result lists and the derived next action, and `Validation` the check of ids on submission and
  which reservations can become deployed at all. `Lifecycle` interleaves the HTTP handlers as single
  database accesses, `Deletion` says when a deleted reservation stays deleted, and `Api` is the
  handlers one at a time, each leading from the end of a run of those accesses to the end of another.
  `System` interleaves handlers, escrow loop, ledger and clock: nothing is deployed before it is signed
  and paid for, and nothing is paid out before it is deployed. `SystemRuns` constructs runs of the
  whole in which something goes wrong.
- **Resources.** `Resources` adds up what a reservation takes from each farm.
- **Overlay networks.** `Addresses`, `Worklist`, `AllowedIPs`, `NetworkBuilder` and
  `NetworkTheorems` model the addresses derived for WireGuard, the list that is extended while it is
  scanned, and the round trip of access points through generated peers.

Where a promise is false of the code, the code is modelled as it is, the condition under which the
promise holds is proved, and an instance shows that it fails otherwise:

- the payout split loses money exactly when ten times the price overflows an int64
  (`Payout.SplitPayout`, `Payout.OverflowLoses`);
- a distribution that sums to 356 passes `validate` (`Payout.ValidateMeansHundred`);
- a balance is read right exactly when the transactions whose lookups failed for good net to nothing,
  and none is missed exactly when every lookup is answered in the end (`Horizon.ReadsExactlyIff`).
  One failed lookup of a payout makes it too high, one failed lookup of a payment makes it too low
  (`Horizon.LastLookupFails`, `Horizon.FirstLookupFails`). A reservation that is neither settled nor
  being settled is never read too high, whatever fails (`EscrowTheorems.UnsettledIsReadLow`);
- reading it never ends exactly when from some request on every page is full of the reservation's own
  transactions and all their lookups fail (`Endless.NeverEndsIff`, `Endless.AlwaysFailing`);
- a refund panics exactly when none of the transactions that are read names a donor and one of them
  takes money out (`EscrowTheorems.RefundPanicsIff`), which cannot happen to a first refund
  (`EscrowTheorems.FirstRefundNeverPanics`); in a run it happens to the refund after a payout
  (`EscrowGuards.FirstLookupPanicRun`);
- a poll takes a reservation for funded that is not exactly when the price is above its balance but not
  above the balance less the net of the missed transactions (`EscrowTheorems.PollFundsUncoveredIff`).
  Canceled documents are still polled: there is a run in which one is marked as paid after its refund
  (`EscrowGuards.CanceledIsMarkedPaid`), and one of the whole system in which its reservation is stored
  as Deploy with nothing left under its memo (`SystemRuns.RefundedIsDeployed`). It never happens to a
  document that is open and whose flags are up to date (`EscrowTheorems.PollFundsCovered`);
- no reservation is overdrawn exactly as long as every payout and refund takes no more than its own
  reservation has (`EscrowTheorems.StaysSolventIff`): for a refund, as long as the amount that was read
  is not above that (`EscrowTheorems.RefundSolventIff`), for a payout, as long as its batch is not
  (`EscrowGuards.PayoutSolventIff`), which neither the Paid flag nor the account's balance rules out.
  There are a run in which a client gets his money back and the farmers' batch is paid as well, with a
  neighbour's money (`EscrowGuards.MissedPayoutRun`), one for a reservation that was never paid for
  (`EscrowGuards.UnpaidPayoutOverdraws`), and the state after a lost Canceled write is a third case
  (`EscrowGuards.LostWriteOverdraws`);
- farmers are paid once for every release whose write is lost, and once more if a release is under way
  or recorded (`EscrowTheorems.PaidOncePerRelease`). After a lost Released write they are paid again
  exactly when the account can pay (`EscrowGuards.LostReleasePaysAgainIff`);
- a stored Deleted is final, whatever the handlers still have to do, exactly when no cancellation, no
  Delete, no error report and no registration at Pay is pending for it (`Deletion.QuietIff`), and then
  only a new error report or a write of the escrow loop can undo it (`Deletion.QuietIsFinal`). In runs
  of the whole system it is undone by a late error report, by a list request that read the reservation
  as expired before, by the escrow loop, and by the free escrow (`SystemRuns.LateErrorUndeletes`,
  `SystemRuns.ListUndeletes`, `SystemRuns.StaleLoopUndeletes`, `SystemRuns.StaleDeployUndeletes`);
- a reservation whose escrow is canceled is still derived as Deploy exactly when Deploy is stored, it
  is not doomed, and it is not late or was reported Ok in full after all; its farmers are not paid any
  more (`System.CanceledYetDeploysIff`). There is a run in which it is refunded when its provisioning
  window closes and reported after that (`SystemRuns.LateReportDeploys`);
- an Ok report is taken in any state, so the escrow can be told that a reservation is deployed which
  is still to be paid (`SystemRuns.UnpaidIsReportedDeployed`);
- a reservation can become deployed exactly when no two of its workloads share an id and a node, and
  each has a node (`Validation.CanDeployIff`). Validation checks the ids of all workloads except
  networks, so it accepts networks with two resources on one node, and two networks under one id
  (`Validation.TwiceOnOneNode`, `Validation.TwoUnderOneId`);
- storing a derived action makes no difference to later evaluations, except for a reservation that
  was late and whose deployment is completed afterwards (`Pipeline.LazyEvaluationIff`,
  `Validation.LateCompletionIsLost`);
- `generatePeers` never returns when there is a way in for hidden nodes and the last resource's range
  is routed behind itself and gets scanned (`NetworkTheorems.EndsIff`, `NetworkTheorems.NeverSettles`,
  `NetworkTheorems.FailsBeforeScanning`), fails with hidden nodes
  whenever the builder has no NodeID even if public nodes exist, and lets public nodes peer with
  themselves (`NetworkTheorems.PeersWithItselfIff`); the subnets of hidden nodes are never added to any
  peer (`NetworkBuilder.Builder.PeerFor`). The comments in that function describe what is intended.

## Assumptions

These are guards of the steps or parameters, and are visible in the predicates named here.

- `Escrow.External`: only the escrow loop debits escrow accounts, and every outside payment to one
  debits somebody else.
- `Escrow.Prompt`: the loop is told that a reservation is deployed only while it is marked paid and
  no settlement write of it was lost before. The code checks neither; `EscrowGuards` shows what happens
  otherwise.
- `Escrow.NotOverread`: in the refund that follows a payout, and in a refund after a settlement whose
  write was lost, no lookup fails in such a way that the balance is read too high. Otherwise lookups
  may fail at will: every read takes the set of lookups that fail. The code logs a failed lookup and
  goes on; `EscrowGuards` shows what happens when this does not hold. Histories need neither this guard
  nor `Prompt`.
- Only finitely many lookups of one read fail in `Horizon` and all that builds on it; then the read
  ends (`Endless.FiniteFailuresEnd`). `Endless` has no such bound.
- `Panic` is the end of the program in a refund without donors, `Crash` its end anywhere else; the
  loop starts again and the rest of its batch is dropped. Neither needs a guard.
- All effects of a transaction are in the one page that is requested of them
  (pkg/stellar/stellar.go:308-311); `Settlement.BatchSeenInPart` says what is seen otherwise.
- `Escrow.Enabled`: the clock never goes back; a wallet submission is atomic and either happens or
  has no effect; the network refuses an empty batch and one that the account cannot pay. Any step of
  the loop may fail at any point, also between a submission and the write that records it
  (`unrecorded` remembers such reservations).
- `Settlement.Admissible`: prices are not negative and small enough that int64 sums and ten times a
  price do not overflow.
- `Lifecycle.Enabled`: reservations enter with NextAction Create. The bulk write that replaces a
  signature and the pull and push of a result are one step each; every other database access is a
  step of its own.

## Model

| member | source | states |
|---|---|---|
| Payout.DistributionOf | pkg/escrow/payout_distribution.go:10-19 | every supported asset has a distribution that validates and sums to exactly 100; the farmer gets nothing only for FreeTFT |
| Payout.ValidateMeansHundred | pkg/escrow/payout_distribution.go:29-36 | a validated distribution sums to 100 if and only if the uint8 sum does not wrap; an instance that sums to 356 passes |
| Payout.SplitIsFair | pkg/escrow/stellar.go:584-632 | the split is non-negative, gives nothing to a party without a percentage, is less than two units from each exact share, and sums to the total less its last digit |
| Payout.WhoGetsWhat | pkg/escrow/payout_distribution.go:10-19 | in closed form, of TFT and TFTA the farmer gets nine tenths of the price less its last digit and the foundation one tenth, and all of FreeTFT is burned |
| Payout.SplitPayout | pkg/escrow/stellar.go:584-632 | the int64 computation equals that split when ten times the total fits, and conserves the rounded total if and only if it fits |
| Payout.OverflowLoses | pkg/escrow/stellar.go:584-632 | the smallest price whose split loses money, for every distribution that sums to 100 |
| Payout.ChangeIsWholeFor | pkg/escrow/stellar.go:603-616 | for any multiplier that divides 100, the collected remainders are a multiple of it and make up exactly what the three divisions cut off |
| Ledger.PositiveBalanceHasFunder | pkg/stellar/stellar.go:316-358 | when every transaction that credits the account debits somebody else, a positive balance has a non-empty list of donors |
| Ledger.NetIsCreditsLessDebits | pkg/stellar/stellar.go:316-347 | what a transaction does to an account is what it is credited in the asset less what it is debited in it |
| Ledger.DonorsPaidIn | pkg/stellar/stellar.go:316-357 | on the effects: an account is a donor of a transaction if and only if it is another one, it is debited in whatever asset, and the last effect on the escrow account in its asset is a credit |
| Ledger.FundersPaidIn | pkg/stellar/stellar.go:277-386 | the donors of a balance are exactly those who paid in like that with a transaction of its memo |
| Ledger.AccountCoversReservations | pkg/stellar/stellar.go:277-386 | if no memo is overdrawn, the account holds at least the sum of the balances of any distinct memos |
| Horizon.ScanEffects | pkg/stellar/stellar.go:316-358 | the scan of one transaction's effects gives what the account is credited less what it is debited and, as donors, exactly the other accounts that are debited if the last effect on the account is a credit |
| Horizon.GetBalance | pkg/stellar/stellar.go:277-386 | for every history that grows between pages and every finite set of lookups that fail: no transaction counts twice, only the reservation's own count, and the total is the fold over the history last seen less exactly the transactions that were missed, which are a function of these inputs; whoever is returned as a donor was debited in a transaction of the memo that pays the account, and whoever was is returned if every lookup is answered |
| Horizon.MisreadBy | pkg/stellar/stellar.go:304-385 | picked and missed transactions together amount to the balance, so a missed debit overstates it |
| Horizon.ReadsExactlyIff | pkg/stellar/stellar.go:304-385 | a read is exact if and only if what was missed nets to nothing, nothing is missed if and only if every lookup is answered in the end, and whoever is read as a donor is one |
| Horizon.LastLookupFails | pkg/stellar/stellar.go:311-315 | on a history of less than a page, one failed lookup of the last transaction makes the balance before it be read: too much if it was a payout |
| Horizon.FirstLookupFails | pkg/stellar/stellar.go:311-315 | a ledger on which one failed lookup gives a negative balance without donors, and another one gives too much |
| Horizon.ReadingIs | pkg/stellar/stellar.go:277-386 | on a ledger that stands still the balance and the donors are read right if every lookup is answered in the end |
| Horizon.NothingTaken | pkg/stellar/stellar.go:304-385 | a balance from which nothing was ever taken is not read too high, and not below zero |
| Endless.NeverEndsIff | pkg/stellar/stellar.go:302-383 | the loop over the pages never ends if and only if from some request on every page is full of the reservation's transactions whose lookups all fail |
| Endless.FiniteFailuresEnd | pkg/stellar/stellar.go:302-383 | it ends whenever only finitely many lookups fail |
| Endless.LastPageIsFirstNotFull | pkg/stellar/stellar.go:365-367 | for a finite set of failures the request at which it ends is the last one of the balance read |
| Endless.AlwaysFailing | pkg/stellar/stellar.go:302-383 | a first page full of the reservation's transactions, no lookup of which is ever answered, is requested for ever |
| Settlement.RequiredValue | pkg/escrow/stellar.go:221-225 | the summed price, for admissible prices |
| Settlement.CollectPayments | pkg/escrow/stellar.go:420-480 | the loop over the details builds exactly the batch: a payment per farmer with a wallet and a share, one burn, one foundation payment; and its payments give every account exactly the shares of the farmers whose wallet it is, the burned shares if it is the issuer, and the foundation shares if it is the foundation |
| Settlement.BatchGives | pkg/escrow/stellar.go:420-480 | that last statement for every list of non-negative prices |
| Settlement.BatchAddsUp | pkg/escrow/stellar.go:420-480 | batch, shares of farmers without a wallet and cut-off last digits make up the price, so the batch never exceeds it |
| Settlement.EffectsNet | pkg/stellar/stellar.go:447-490 | a submitted batch takes its total from the account and nothing from anyone else |
| Settlement.EffectsGive | pkg/stellar/stellar.go:447-490 | on the ledger every account gains what the payments give it, and the source loses the whole batch |
| Settlement.BatchTraceable | pkg/stellar/stellar.go:391-490 | whoever a payout or refund credits can name a payer, so refunds of later readers still have a destination |
| Settlement.BatchSeenInPart | pkg/stellar/stellar.go:308-311 | if only so many effects of a batch are returned, exactly its first payments are seen |
| EscrowSafety.DocsOnlyGainFlags | pkg/escrow/stellar.go:165-213 | although whole documents are written back from copies taken for a batch, a step changes a document only by setting flags |
| EscrowSafety.SnapshotIsFresh | pkg/escrow/types/escrow.go:114-141 | the copies of a batch are the stored documents and have distinct ids |
| EscrowSafety.StepKeepsSound | pkg/escrow/stellar.go:107-163 | every step, with or without the guards, keeps: copies up to date, every credit traceable, refunds go to funders, nothing was taken from an unsettled reservation, what was found funded or marked as paid and is unsettled is covered |
| EscrowSafety.HistoryIsSound | pkg/escrow/stellar.go:107-163 | so that holds in every state of every history |
| EscrowSafety.StepKeepsInv | pkg/escrow/stellar.go:107-163 | under the guards a step also keeps: no memo overdrawn, what is going to be refunded is there, paid out once |
| EscrowSafety.RunKeepsInv | pkg/escrow/stellar.go:107-163 | so that holds in every state that is reached under the guards |
| EscrowTheorems.BooksBalance | pkg/stellar/stellar.go:391-490 | a reservation's balance is its credits less what went to farmers, burn and foundation and what was refunded |
| EscrowTheorems.BooksAlwaysBalance | pkg/escrow/stellar.go:107-163 | in every state of every history that equation holds |
| EscrowTheorems.RefundsReturn | pkg/stellar/stellar.go:411-443 | in every history every refund goes to an account that was debited before in a transaction of that same reservation whose last effect on the escrow account is a credit |
| EscrowTheorems.PayoutGives | pkg/escrow/stellar.go:420-480 | the transaction of a payout carries the memo of its reservation and gives every account exactly the shares due to it |
| EscrowTheorems.MoneyIsConserved | pkg/escrow/stellar.go:107-163 | under the guards, and so in every reachable state of a run, the remainder of that equation is not negative |
| EscrowTheorems.StaysSolventIff | pkg/escrow/stellar.go:107-163 | in every history, no memo is overdrawn up to a state if and only if every payout and refund before it took no more than its own reservation had |
| EscrowTheorems.AccountCoversAll | pkg/escrow/stellar.go:550-580 | under the guards, in every reachable state a shared account holds at least the sum of what its reservations still own |
| EscrowTheorems.StepsAreIsolated | pkg/escrow/stellar.go:383-521 | no step on one reservation changes what another one owns |
| EscrowTheorems.SettledOnce | pkg/escrow/stellar.go:383-498 | under the guards, at most one payout per reservation, never both released and canceled, and released only if paid out |
| EscrowTheorems.PaidOncePerRelease | pkg/escrow/stellar.go:405-500 | in every history, the number of payouts of a reservation is that of its lost Released writes, plus one if a release is under way or recorded |
| EscrowTheorems.ClosedIsNeverPaid | pkg/escrow/stellar.go:405-413 | in every history, a released or canceled reservation is not paid out any more |
| EscrowTheorems.NoLostUpdate | pkg/escrow/types/escrow.go:87-95 | over any stretch of any history a document only gains flags: no whole-document write loses an update |
| EscrowTheorems.PaidIsCovered | pkg/escrow/stellar.go:215-281 | in every history, whatever lookups fail, a document that is marked as paid, open, up to date and not being settled can be paid for in full |
| EscrowTheorems.UnsettledIsReadLow | pkg/stellar/stellar.go:304-385 | in every history, whatever lookups fail, the balance of a reservation that is neither settled nor being settled is not read too high |
| EscrowTheorems.PollFundsUncoveredIff | pkg/escrow/stellar.go:215-235 | a poll takes a reservation for funded that is not if and only if its price is above its balance but not above the balance less the net of the missed transactions |
| EscrowTheorems.PollFundsCovered | pkg/escrow/stellar.go:215-235 | in every history that never happens to a document that is open and up to date |
| EscrowTheorems.RefundHasDestination | pkg/stellar/stellar.go:397-443 | in every reachable state a refund whose lookups are answered in the end can go on and does not panic: if there is something to refund, there is somebody to refund |
| EscrowTheorems.RefundPanicsIff | pkg/stellar/stellar.go:397-411 | in every history a refund panics if and only if no transaction that is read names a donor and one of them takes money out |
| EscrowTheorems.FirstRefundNeverPanics | pkg/stellar/stellar.go:397-411 | so a refund that follows neither a payout nor a settlement whose write was lost goes on, whatever lookups fail |
| EscrowTheorems.RefundIsCovered | pkg/stellar/stellar.go:415-443 | the network cannot refuse a refund for lack of funds |
| EscrowTheorems.RefundSolventIff | pkg/stellar/stellar.go:391-443 | a refund leaves its reservation solvent if and only if the amount that was read is at most what it has when the refund is submitted |
| EscrowTheorems.RefundEmpties | pkg/stellar/stellar.go:391-443 | a refund leaves exactly what it did not read and what arrived after: nothing if and only if it read everything, when nothing arrived |
| EscrowTheorems.StaysEmpty | pkg/escrow/stellar.go:107-163 | over any stretch of any run, a reservation with nothing left keeps having nothing unless somebody pays in |
| EscrowTheorems.RefundIsRetrySafe | pkg/escrow/stellar.go:165-185 | in every run: after a refund of everything, whether its flag was recorded or lost, and any steps that bring in nothing for this reservation, its next refund moves nothing and goes straight to the flag |
| EscrowTheorems.SettlementIsExact | pkg/escrow/stellar.go:405-500 | payout and a refund that reads right bring the balance to exactly zero; what goes back is the overpayment, the dust and the shares of farmers without a wallet |
| EscrowGuards.PayoutSolventIff | pkg/escrow/stellar.go:405-413 | a payout leaves its reservation solvent if and only if the batch does not exceed that reservation's balance |
| EscrowGuards.LostWriteEmpties | pkg/escrow/stellar.go:383-402 | before the Canceled write a refunded reservation still reads as open and has nothing |
| EscrowGuards.LostWriteOverdraws | pkg/escrow/stellar.go:383-500 | if that write is lost, a payout the network accepts overdraws the reservation |
| EscrowGuards.LostReleasePaysAgainIff | pkg/escrow/stellar.go:481-498 | if the Released write is lost, the next deployed message pays the farmers a second time if and only if there is something to pay and the account can pay it |
| EscrowGuards.MissedPayoutOverdraws | pkg/escrow/stellar.go:481-486 | the refund that misses its payout refunds the balance before it, and overdraws the reservation by the whole batch if the account can pay |
| EscrowGuards.MissedPayoutRun | pkg/escrow/stellar.go:481-486 | for every account, neighbour and amount: a run from the initial state to such a refund, which the network accepts |
| EscrowGuards.FirstLookupPanicRun | pkg/stellar/stellar.go:411 | for every account, client and amount: a run from the initial state through a payout to a refund that panics when one lookup fails |
| EscrowGuards.CanceledIsMarkedPaid | pkg/escrow/stellar.go:190-281 | for every account, client and amount: a run in which a canceled and refunded document is polled, read as funded and marked as paid with a balance of zero |
| EscrowGuards.UnpaidPayoutOverdraws | pkg/escrow/stellar.go:405-413 | for every account, neighbour and amount: a run from the initial state in which an unpaid reservation is paid out with a neighbour's money |
| Stellar.Service.ProcessReservation | pkg/escrow/stellar.go:354-380 | stores a new, open and unpaid document exactly when there is none under its id |
| Stellar.Service.RefundEscrow | pkg/escrow/stellar.go:502-521 | for every failing lookup and every way to fail: refunds what is read to one of the donors that are read, changes nothing, or panics; from the end of a history to the end of one, guarded if this refund was safe |
| Stellar.LeavesNothing | pkg/escrow/stellar.go:502-521 | a refund changes no other memo, and takes exactly the amount from its own |
| Stellar.Service.RefundClients | pkg/escrow/stellar.go:383-402 | refunds and cancels an open reservation, leaves it open if the refund fails, leaves a settled one alone, reports a missing one |
| Stellar.Service.PayoutFarmers | pkg/escrow/stellar.go:405-500 | pays the batch of any open reservation, paid or not, if the network takes it, and refunds what is then read as left; Released is set exactly when both worked; guarded exactly if the payout was safe |
| Stellar.Service.CheckReservationPaid | pkg/escrow/stellar.go:215-281 | whatever lookups fail, writes Deploy and Paid exactly when the balance that is read covers the price and the pipeline derives Pay |
| Stellar.Service.CheckReservations | pkg/escrow/stellar.go:190-208 | whatever the order of the cursor and whatever lookups fail, deploys and marks exactly the active reservations that are read as funded and are at Pay |
| Stellar.PaidAreFunded | pkg/escrow/stellar.go:190-281 | afterwards a document is marked as paid if and only if it was before, or has time left, is read as holding its price, and its reservation is derived as Pay |
| Stellar.Service.RefundExpiredReservations | pkg/escrow/stellar.go:165-185 | whatever refunds and lookups fail: cancels exactly the expired reservations whose refund succeeded, takes from each exactly what was read, stops at a panic; an answered refund leaves nothing. Whatever is settled or not yet past its expiration keeps its document, and each of the others has its turn unless a panic comes first |
| Stellar.PayoutIsCovered | pkg/escrow/stellar.go:405-480 | the network cannot refuse the payout of a paid reservation for lack of funds |
| Workloads.ListWorkloads | pkg/workloads/types/reservation.go:317-460 | the list for a node id is the order-preserving filter of the full list |
| Workloads.KindsAreLists | pkg/workloads/types/reservation.go:317-460 | the workloads of each kind are those of the list of that name, with the id and node of their entry |
| Workloads.ListsAreListed | pkg/workloads/types/reservation.go:317-460 | and every entry of every list is among them |
| Workloads.NodeIDs | pkg/workloads/types/reservation.go:479-508 | exactly the nodes of all non-gateway workloads |
| Workloads.GatewayIDs | pkg/workloads/types/reservation.go:511-539 | exactly the nodes of all gateway workloads |
| Workloads.NodesOrGateways | pkg/workloads/types/reservation.go:479-539 | the two sets together are the nodes of all workloads |
| Workloads.FilterSelectsExactly | pkg/workloads/types/reservation.go:98-113 | the database filter for a node selects a reservation if and only if it has a workload on that node |
| Workloads.NodesPartitionWorkloads | pkg/workloads/types/reservation.go:317-539 | the lists of the distinct nodes partition the full list |
| Pipeline.CountSignatures | pkg/workloads/types/pipeline.go:23-87 | the counting loop |
| Pipeline.CountIsDistinctSigners | pkg/workloads/types/pipeline.go:23-87 | on a list with one entry per signer the count is the number of distinct allowed signers |
| Pipeline.PushKeepsQuorum | pkg/workloads/types/reservation.go:607-635 | a push keeps one entry per signer, adds exactly its signer and never lowers a count |
| Pipeline.PushMembers | pkg/workloads/types/reservation.go:607-635 | after a push the new signature and those of all other signers are there, and nothing else |
| Pipeline.PushedCount | pkg/workloads/types/reservation.go:607-635 | after any sequence of pushes the count is the number of distinct allowed signers who signed |
| Pipeline.Next | pkg/workloads/types/pipeline.go:90-145 | the loop ends and equals the closed form of the derived action; modified is set exactly when the action changed. With one entry per signer, in time and not to be deleted, a new or unsigned reservation goes to Pay if and only if no quorum is asked for or that many distinct allowed signers signed, and to Sign otherwise; in time, it goes to Delete if and only if a delete quorum is asked for and that many signed; out of time it always does |
| Pipeline.DerivesBySigners | pkg/workloads/types/pipeline.go:23-145 | the same of the closed form |
| Pipeline.LazyEvaluationIff | pkg/workloads/types/pipeline.go:90-145 | storing an earlier evaluation makes no difference to a later one except in one stated case |
| Pipeline.LazyEvaluation | pkg/workloads/types/pipeline.go:90-145 | so it makes none, whatever signatures are pushed in between |
| Reports.ResultOf | pkg/workloads/types/reservation.go:290-299 | the first result under an id, none if and only if there is none |
| Reports.AllDeleted | pkg/workloads/types/reservation.go:302-313 | true exactly when the first result of every workload's id is in state Deleted |
| Reports.PushKeepsResultsOk | pkg/workloads/types/reservation.go:703-729 | a push keeps one result per key, keys of workloads only, and node-less entries in state Deleted |
| Reports.PushReplaces | pkg/workloads/types/reservation.go:703-729 | the pushed result is the last one, and exactly those of other nodes and other workloads remain |
| Reports.RemovalIsWellKeyed | pkg/workloads/reservation.go:651-679 | what a delete report pushes has the key of a workload, or no node and state Deleted |
| Reports.RemovalIsReadIff | pkg/workloads/reservation.go:651-679 | after a removal is pushed the workload is read as removed if and only if the first remaining result under its id is a removal, or none remains |
| Reports.RemovalIsRead | pkg/workloads/reservation.go:651-679 | so it is whenever all results under the id are those of one node |
| Reports.DeployedMeansEveryWorkload | pkg/workloads/types/reservation.go:464-476 | enough results, all Ok, mean an Ok result for every workload under its own id and node |
| Reports.SharedKeyNeverDeploys | pkg/workloads/types/reservation.go:464-476 | two workloads under one id on one node never count as deployed |
| Validation.DeployedIff | pkg/workloads/types/reservation.go:464-476 | a reservation counts as deployed if and only if no two workloads share a key, each has an Ok result under its key, and there are no other results |
| Validation.CanDeployIff | pkg/workloads/types/reservation.go:464-476 | there are results under which it counts as deployed if and only if no two workloads share a key and each is on a node |
| Validation.DeployedOnceAllReported | pkg/workloads/types/reservation.go:703-729 | and then the nodes' Ok reports, pushed one after the other, make it count |
| Validation.Validate | pkg/workloads/types/reservation.go:198-236 | the loop accepts exactly when the ids of all items except networks are distinct |
| Validation.ValidatedIsDistinctIff | pkg/workloads/types/reservation.go:198-236 | in an accepted reservation all keys are distinct if and only if those of the network resources are, among themselves and from all others |
| Validation.TwiceOnOneNode | pkg/workloads/types/reservation.go:203-229 | with two resources of any of its networks on one node, validation decides as if there were no networks, and no reports make the reservation deployed |
| Validation.TwoUnderOneId | pkg/workloads/types/reservation.go:203-229 | so it is with any two of its networks under one id that share a node |
| Validation.LateCompletionIsLost | pkg/workloads/types/pipeline.go:90-145 | the case in which storing an earlier evaluation does make a difference |
| Lifecycle.StepKeepsInv | pkg/workloads/reservation.go:85-213 | every single database access of the handlers keeps signatures, results and actions well-formed |
| Lifecycle.ReservationStep | pkg/workloads/reservation.go:549-850 | no access loses a quorum or changes the order of a reservation |
| Lifecycle.DoomIsForever | pkg/workloads/types/pipeline.go:90-106 | once expired or with its delete quorum, a reservation is derived as Delete or Deleted at every later time of every interleaving, even after a stale Deploy |
| Lifecycle.EveryReservationHadAnHour | pkg/workloads/reservation.go:92-99 | in every run each stored reservation had at least 3600 seconds to go when it was created |
| Lifecycle.DeployedIsSound | pkg/workloads/reservation.go:573-597 | in every interleaving, counted as deployed means every workload was reported Ok |
| Deletion.DeletedStaysIff | pkg/workloads/reservation.go:465-850 | a step on a stored Deleted keeps it if and only if it is none of three writes: Delete by any handler, Deploy by the escrow loop, Deploy by the free escrow |
| Deletion.DeletedIsFinalIff | pkg/workloads/reservation.go:465-850 | over any stretch of any interleaving, Deleted is final if and only if none of those writes happens |
| Deletion.QuietIff | pkg/workloads/reservation.go:465-850 | a stored Deleted survives whatever the handlers still have to do if and only if no cancellation, Delete, error report or registration at Pay is pending for it |
| Deletion.QuietIsFinal | pkg/workloads/reservation.go:465-850 | and then it stays over any stretch of any interleaving that has no new error report for it and no write of the escrow loop |
| SystemRuns.LateErrorUndeletes | pkg/workloads/reservation.go:603-606 | a run of the whole system, from any start, to a stored Deleted over which a late error report writes Delete |
| SystemRuns.ListUndeletes | pkg/workloads/reservation.go:480-485 | one in which a list request read it as expired, its node reports the removal, and the list's Delete is written over Deleted; no error is reported |
| SystemRuns.StaleDeployUndeletes | pkg/escrow/escrow.go:36-46 | one in which the free escrow acts on the Pay it was handed, after which the reservation is stored and derived as Deploy |
| SystemRuns.StaleLoopUndeletes | pkg/escrow/stellar.go:239-281 | one in which the reservation is registered, paid for and read as Pay by the loop, is deleted, and is then stored and derived as Deploy by the loop's write |
| SystemRuns.UnpaidIsReportedDeployed | pkg/workloads/reservation.go:573-621 | one after which the escrow is to be told that a reservation is deployed that is stored as Pay |
| Api.Handlers.Create | pkg/workloads/reservation.go:85-213 | stores and registers a submission under its derived action exactly when it has an hour to go, its ids are distinct, its delete quorum is not negative, its provisioning window is open or it is empty, and its addresses and signature are accepted; then it is at Pay if its provision quorum is not positive, and else at Sign |
| Api.AcceptableIff | pkg/workloads/reservation.go:85-213 | these conditions on the submission itself are exactly the checks on the cleaned one and what the pipeline derives for it |
| Api.Handlers.SignProvision | pkg/workloads/reservation.go:702-770 | accepts a verified signature exactly in state Sign from a listed, known signer, and then replaces that signer's entry and changes nothing else |
| Api.Handlers.SignDelete | pkg/workloads/reservation.go:772-844 | after an accepted signature the reservation is stored as Delete, its escrow canceled and its workloads queued exactly when it is then derived as Delete |
| Api.Handlers.PutResult | pkg/workloads/reservation.go:549-621 | accepted exactly from a node that runs this workload of the reservation; stores the report under the caller's node and takes the workload off the queue; an error deletes and cancels, an Ok report tells the escrow exactly when all is deployed; Deleted stays if and only if the report is no error |
| Api.Handlers.PutDeleted | pkg/workloads/reservation.go:623-700 | accepted exactly from a node that runs this workload of the reservation; stores a removal, takes the workload off the queue and writes Deleted exactly when every workload is then removed |
| Api.PopTakesOne | pkg/workloads/types/reservation.go:669-675 | the first entry of this workload and node is taken off the queue, if there is one, and all others stay in their order |
| Api.Handlers.SetReservationDeleted | pkg/workloads/reservation.go:846-850 | tells the escrow and writes Delete |
| System.Projections | pkg/escrow/stellar.go:107-163 | every history of the whole system is a history of the escrow machine and a run of the handlers, and a run is a run, so all theorems on them hold in it |
| System.DeployIsEarned | pkg/workloads/types/pipeline.go:114-142 | in every history a reservation stored as Deploy was, at an earlier step, signed for by as many distinct allowed signers as it asks for, derived as Pay and, unless the free escrow is used, funded under its own memo or settled already |
| System.ActionEarned | pkg/escrow/escrow.go:36-46 | in every history no step, whether of a handler, the escrow loop or the free escrow acting on an action it was handed earlier, stores Pay or Deploy for a reservation that had not earned it |
| System.PayoutWasReported | pkg/escrow/stellar.go:405-500 | in every history farmers are paid only for a reservation all of whose workloads were reported Ok |
| System.PayoutIsEarned | pkg/escrow/stellar.go:405-500 | under the guards, in every interleaving farmers are paid at most once, and only for a reservation that was funded and all of whose workloads were reported Ok |
| System.CanceledYetDeploysIff | pkg/workloads/types/pipeline.go:90-112 | in every history, a reservation whose escrow is canceled is derived as Deploy if and only if Deploy is stored, it is not doomed, and it is not late or was reported Ok in full; its farmers are not paid any more |
| SystemRuns.LateReportDeploys | pkg/escrow/stellar.go:165-185 | a run in which a reservation is refunded at the end of its provisioning window, is then reported Ok, and is derived as Deploy with nothing left |
| SystemRuns.RefundedIsDeployed | pkg/escrow/stellar.go:215-281 | a run in which a refunded and canceled reservation is read as funded and stored as Deploy |
| Resources.TenThousandths | pkg/escrow/resource.go:134-140 | memory / 1024 rounded to four digits, halves away from zero |
| Resources.ProcessReservationResources | pkg/escrow/resource.go:109-132 | fails exactly when a node of one of the lists is unknown; otherwise each farm of a node in use gets, modulo int64: the cpus of its containers and 1 per small and 2 per large machine as cru, the sizes of its SSD volumes and databases and 50 or 100 per machine as sru, those of its HDD ones as hru, and its containers' rounded memories and 2 or 4 units per machine as mru |
| Resources.FarmGives | pkg/escrow/resource.go:109-188 | the same of the fold over all workloads in any order of the map |
| Resources.AddIsWrappedPlus | pkg/escrow/resource.go:190-197 | adding int64 units step by step wraps to the exact sum |
| Resources.FarmsAddUpToWorkloads | pkg/escrow/resource.go:109-132 | the sum over the farms, in any order, is the sum over all workloads |
| Addresses.WgSubnetContainsExactly | provision/builders/networkBuilder.go:673-695 | for prefixes up to 24, the WireGuard subnet of a network contains the WireGuard address of every range in it, and of no other range with the same first octet |
| Addresses.WgIPIsInjective | provision/builders/networkBuilder.go:673-682 | two ranges share a WireGuard address exactly when their middle octets agree |
| Addresses.WgIPIsCGN | provision/builders/networkBuilder.go:727-733 | every WireGuard address lies in 100.64.0.0/10 |
| Worklist.RunsOutIffAcyclic | provision/builders/networkBuilder.go:528-534 | the scan can end if and only if no reachable range leads back to itself, and then within one round per routed range |
| Worklist.RoundsAreLeast | provision/builders/networkBuilder.go:528-534 | the finished list is the least closed one |
| Worklist.OnlyReachable | provision/builders/networkBuilder.go:528-534 | everything on the list is reachable from the initial ranges |
| Worklist.ExtendedRoutesEverything | provision/builders/networkBuilder.go:528-534 | the initial ranges come first, and what is behind a range on the list is on the list |
| AllowedIPs.Extend | provision/builders/networkBuilder.go:528-534 | the loop that appends to the list it scans ends and computes that list |
| NetworkBuilder.Builder.ExternalSubnets | provision/builders/networkBuilder.go:401-411 | only the last resource's range has subnets behind it: those of the builder's own node |
| NetworkBuilder.Builder.PeerFor | provision/builders/networkBuilder.go:442-541 | which nodes become peers and with which allowed addresses; the branches for hidden subnets add nothing |
| NetworkBuilder.Builder.GeneratePeers | provision/builders/networkBuilder.go:369-560 | succeeds exactly when every node has an endpoint, or the builder has a NodeID and some node an IPv4 endpoint; then it rewrites every resource's peers in place and nothing else |
| NetworkBuilder.Builder.ExtractAccessPoints | provision/builders/networkBuilder.go:735-758 | the access points are the peers whose key is no node's, node by node |
| NetworkTheorems.SettlesIff | provision/builders/networkBuilder.go:401-534 | the exact inputs on which every scan ends |
| NetworkTheorems.EndsIff | provision/builders/networkBuilder.go:369-534 | generation ends if and only if there is no way in for hidden nodes, which it reports first, or its input is one of those |
| NetworkTheorems.FailsBeforeScanning | provision/builders/networkBuilder.go:383-393 | inputs on which it returns that error although a scan would not end |
| NetworkTheorems.PeersWithItselfIff | provision/builders/networkBuilder.go:442-445 | a node peers with itself if and only if it is public and not the builder's node |
| NetworkTheorems.NeverSettles | provision/builders/networkBuilder.go:401-534 | the smallest inputs on which generation does not end: the subnet of an access point of the builder's node is the range of the last resource |
| NetworkTheorems.NodePeerOf | provision/builders/networkBuilder.go:436-541 | the node peers of a resource are those of the resources it may peer with, each with that node's key |
| NetworkTheorems.OnePeerEach | provision/builders/networkBuilder.go:436-541 | and each of these gives exactly one |
| NetworkTheorems.HasPeerIff | provision/builders/networkBuilder.go:436-541 | on endpoints, for nodes with a key of their own: a hidden node gets exactly the nodes with IPv4 as peers, one with IPv4 itself all nodes, one with IPv6 only all public nodes, and nobody the builder's own node |
| NetworkTheorems.PeeringIsMutual | provision/builders/networkBuilder.go:436-541 | of two nodes with keys of their own, neither of them the builder's, each has a peer with the other's key, or neither has; they do exactly when both are public, or one is hidden and the other has IPv4 |
| NetworkTheorems.NodePeerRoutes | provision/builders/networkBuilder.go:436-541 | a node's peer may route its range, that's WireGuard address and, only if one of the two is the range of the last resource, the subnets of the access points of the builder's node with their addresses, all of them, and nothing else |
| NetworkTheorems.PointPeerIff | provision/builders/networkBuilder.go:543-556 | the other peers of a node are exactly its access points, each of which may route its own subnet and its WireGuard address and nothing else |
| NetworkTheorems.LabelsAreSubnets | provision/builders/networkBuilder.go:646-658 | the label of an edge drops exactly the WireGuard addresses: what remains is the peer's range and subnets of access points |
| NetworkTheorems.ExtractAfterGenerate | provision/builders/networkBuilder.go:735-758 | on all inputs, extraction gives back the access points of each listed node in turn, stably, without those that use a node's key |
| NetworkTheorems.RoundTripIff | provision/builders/networkBuilder.go:735-758 | it gives back exactly the original access points, IPv4 flag cleared, if and only if each is on a node listed once and uses no node's key |
| NetworkTheorems.SecondRoundTrip | provision/builders/networkBuilder.go:369-560 | under that condition a second generation and extraction change nothing at all |

## Left out

- Api.Handlers.Create: addresses, the choice among currencies and the customer's signature are parameters; the other checks of `Validate` (customer, data, signing requests, expirations) are not modelled, and neither are database errors.
- Api.Handlers.SignDelete: whether a signer is known and the signature is his are parameters, as in `SignProvision`; the error of queueing an empty list of workloads, which comes after all other writes, is not modelled.
- The methods of `Api` and `Stellar` run without interference; interference is the subject of `Lifecycle`, `Escrow` and `System`, which leave the queue of workloads out.
- Asset selection in `processReservation` and the price computation `calculateReservationCost`: floating-point formatting; prices are arbitrary amounts here.
- Transaction fees, minimum balances, key pairs, seed encryption, multisig and signature checks.
- HTTP routing, JSON and BSON, Mongo cursors beyond "every matching document once in some order".
- The number of digits of a currency is fixed at 7, as every wallet has it, so the multiplier of the split is 10.
- EscrowSafety.RunKeepsInv: holds under the guards `Prompt` and `NotOverread`, as do MoneyIsConserved, AccountCoversAll, SettledOnce and PayoutIsEarned, which rest on it; the code checks neither.
- Balances are unbounded integers; a sum of int64 amounts that wraps is not modelled.
- NetworkTheorems.RoundTripIff: is about the two functions called one after the other; the commands that load and save a network do not fill the list of resources between them.
- Horizon.ScanEffects: takes all effects of a transaction; the source asks for them once, without a limit or a cursor, so a batch with more effects than a page would be seen in part.
- Horizon.GetBalance: amounts that cannot be parsed, which the source skips, and errors of the transaction request, which abort it, are not modelled; addresses are not empty.
- Resources.ProcessReservationResources: memory is held in exact ten-thousandths, where the source adds float64 values; memory so large that a float64 rounds it is not modelled.
- AllowedIPs.Extend: requires that the scan ends; on other inputs the source's loop runs until memory is exhausted.
- NetworkBuilder.Builder.GeneratePeers: endpoint strings of peers, IPv6 ranges and empty ranges (on which the source panics) are not modelled.
- RemoveNode, pickPort, setPubEndpoints and the text of WireGuard configurations.
- Schema parsing and generation, pagination helpers, command line tools, migrations and the frontend.
