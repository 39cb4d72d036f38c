# Money and scoring of the prediction contests

This project models the part of the contest platform that holds and moves money, and the pipeline
that decides who gets it, and proves what every run of it keeps.

- **Ledger** (`Ledger`): accounts with running balances, an append-only journal, idempotency keys,
  postings applied line by line and rolled back at the first negative guarded balance.
- **Contest money** (`ContestMoney` with its proofs in `ContestTransfers`, `ContestSafety`,
  `ContestClosing`, `ContestPayments`, `ContestLateEntries`, `ContestGuarantees` and `ContestWallets`, the
  concrete runs in `ContestStaleRuns` and the class in `ContestService`): entry fees into an escrow, and
  out of it by cancellation or settlement. Cancellation and settlement decide on snapshots that may be stale when
  they commit, and a submission may commit long after its guard was read.
- **Ranking and prizes** (`Ranking`, `Leaderboard`): the comparator, the prize split, the live and
  the persisted order.
- **Scoring** (`Markets`, `GroupedScoring`, `ScoringPipeline`, `ScoringWithoutLock`,
  `ScoringService`): the market scorers, grouped bulk scoring, and concurrent workers interleaved
  statement by statement under the per-contest lock.
- **Slips** (`SlipValidator`, `SlipAcceptance`, `SlipScore`): validation, what it accepts, and how
  much a slip can be worth.
- **Withdrawals** (`Withdrawals`, `WithdrawalMoves`, `WithdrawalGuarantees`, `WithdrawalStaleRun`,
  `WithdrawalService`): holds, decisions, payouts and repeated gateway answers.
- **Tokens, throttle, outbox** (`TokenFamilies`, `RateLimiter`, `Outbox`).

Pure code is written as functions and lemmas. Code that updates rows is written twice: as a
function giving the committed state, about which the theorems speak, and as a class whose methods
run the same statements in place and are proved to end in that state. Concurrent protocols are
state machines over their commits (or statements, for scoring), and their theorems quantify over
all finite sequences of steps.

## Assumptions

- A database transaction commits as a whole or changes nothing. Unique keys and conditional updates
  are the database's. Amounts are unbounded integers, identifiers are natural numbers, draw hashes
  are integers.
- Contest runs in general assume nothing about guards. Stronger results name what they need of the
  submissions that commit and are charged: `OnTime`, the contest is not closed; `Safe`, also no
  settlement is pending that saw no entrant; `Fresh`, the contest is still published (fresh runs are
  on time and safe). `Sighted` runs: a cancellation that saw no escrow commits only while there is
  none, or nothing in it. The guards of cancellation, settlement and publication may always be stale.
  The escrow of an open contest, and when a cancellation or a settlement commits, need none of these.
- `Fresh` withdrawal runs: a rejection commits on a withdrawal that nobody has approved, an approval on
  one that is undecided or already approved. Payout results, PROCESSING writes and webhooks interleave
  freely, and the gateway has one terminal outcome per reference.
- Scoring: the predictions of a contest do not change after its lock, final results do not change,
  and a handler finds the contest only in LOCKED or SCORING. A missed event is not rescanned, so
  completion speaks about matches whose handler ran after the lock. The LOCKED to SCORING flip is
  shown at the commit because the contest row is locked until then.
- A fixture is finalized in one step with its guard.
- `Safe` token runs: when a rotation issues the next token, nobody has issued another successor of its
  token and nobody has burned its family since the rotation read its guard (`RunOvertakes`). The guard
  read and the first write may come at any time, and a rotation may stop anywhere. The record of issued
  successors is the model's own.
- The throttle's clock never goes back, timers never fire early, and a provider call starts at the
  instant recorded for it.

## What the proofs found

- A cancellation read in draft finds no escrow and later skips the escrow check, so it can close a
  contest whose escrow holds money (`BlindCancellationStrandsMoney`; exact condition
  `BlindCancellationSafeIff`).
- A submission whose guard is stale can strand its fee in a closed contest: by entering it when it is
  closed already (`LateSubmissionStrandsMoney`), or by entering an open contest over which a settlement
  without entrants is pending (`EmptySettlementStrandsMoney`). These are the only ways
  (`SubmissionSafeIff`).
- A submission into a closed contest can let an old cancellation refund a winner
  (`LateSubmissionAllowsDoublePayment`), or an old settlement pay a refunded entry. Submissions into
  open contests never do (`NoDoublePayment`), and `LateEntryPaysTwiceIff` says exactly which pending
  operations make a late entry dangerous.
- A cancellation read before scoring can commit after it. The code's comment says that cancelling is
  allowed before scoring only; the status is checked on the row that was read, not at the commit
  (`CancellationAfterScoring`; exact condition `OvertakenCancelIff`). The model follows the code.
- An entry that came too late for the settlement has no final rank, and the settled leaderboard shows
  it first (`SettledOrderIsTheRanking`).
- A commission rate of zero makes the settlement journal carry a zero line, which validation refuses,
  and a template whose paid positions all round to a share of zero divides by zero: such a settlement
  aborts for ever (`SettleCommitsIff`). No code path sets either: the rate has its default of 1500 and
  templates come from the seed, so it takes an edit of the database.
- A client key used before buys an entry without a charge (`SubmitEffect`, `EscrowExact`).
- A stale approval can pay a hold that was returned, and a stale rejection can return a hold that is
  paid (`StaleApprovalPaysTwice`, `StaleRejectionPaysTwice`; exact conditions `ApprovalSafeIff`,
  `RejectionSafeIff`). Two administrators approving at once, or rejecting at once, do no harm.
- The second write of a rotation can come too late: after another rotation of the same token, or after
  a logout between the two writes, when it brings a burned family back (`OverlappingRotations`; exact
  condition `RotationSafeIff`).
- A hundred event rows that keep failing block every later event, and ninety-nine do not
  (`FailingBatchStarves`, `OldestOtherIsPublished`).

## Model

| member | source | states |
|---|---|---|
| `Ledger.LedgerInvariant` | apps/api/src/modules/wallet/ledger/ledger.service.ts:47-96 | In every run of postings and account openings: each balance is the sum of its journal lines, all balances sum to zero, user and escrow accounts are non-negative, keys are unique, every journal row is balanced, and earlier journals are prefixes of later ones |
| `Ledger.ReplayDeletion` | apps/api/src/modules/wallet/ledger/ledger.service.ts:50-58 | Deleting from a run any set of postings whose key had already succeeded, whatever lines they carried, leaves the same journal and balances |
| `Ledger.PostKeepsValid` | apps/api/src/modules/wallet/ledger/ledger.service.ts:47-92 | One posting, accepted, replayed or rejected, keeps the ledger invariant |
| `Ledger.ApplyLinesIff` | apps/api/src/modules/wallet/ledger/ledger.service.ts:76-89 | The line loop goes through if and only if after no line a guarded account is below zero, even if a later line would repair it |
| `Ledger.ApplyLinesEffect` | apps/api/src/modules/wallet/ledger/ledger.service.ts:76-89 | When the line loop goes through, each account moves by the sum of its own lines and no guarded account is negative |
| `Ledger.PostIff` | apps/api/src/modules/wallet/ledger/ledger.service.ts:47-96 | A posting goes through if and only if there are at least two lines, none is zero, they sum to zero, the key is new, the accounts exist and no prefix overdraws a guarded one; sound lines under a used key are a replay; whatever does not go through changes nothing |
| `Ledger.PostErrors` | apps/api/src/modules/wallet/ledger/ledger.service.ts:47-89 | The error of a refused posting: too few lines, a zero line, the sum it does not balance to, a missing account, or a guarded account that some prefix of the lines overdraws |
| `Ledger.TransferOutcome` | apps/api/src/modules/wallet/ledger/ledger.service.ts:47-92 | A two-line transfer is replayed if its key is used, posts if and only if both accounts exist and the guarded source covers it, and otherwise changes nothing |
| `Ledger.KeyTextInjective` | apps/api/src/modules/wallet/ledger/ledger.service.ts:50-54 | The stored key strings of different movements or identifiers never coincide |
| `Ledger.LedgerService.PostJournal` | apps/api/src/modules/wallet/ledger/ledger.service.ts:47-92 | The in-place posting (insert the entry, then update balances line by line) ends in the specified state; a rejection leaves balances and journal as they were |
| `Ledger.LedgerService.FindExisting` | apps/api/src/modules/wallet/ledger/ledger.service.ts:51-58 | The key lookup finds the first entry with the key, or none exists |
| `Ranking.ComparatorIsStrictTotalOrder` | apps/api/src/modules/settlement/ranking.ts:27-36 | The five-level comparator is irreflexive up to identity, antisymmetric and transitive when draw hashes are distinct |
| `Ranking.RankingIff` | apps/api/src/modules/settlement/ranking.ts:27-40 | A list is a ranking of the entries if and only if it is a permutation of them in which nobody stands behind somebody with more points, or equal points and more correct expert picks, then hard picks, then the earlier submission, then the smaller draw hash |
| `Ranking.BetterEntriesFirst` | apps/api/src/modules/settlement/ranking.ts:5-13 | Of two entries of a ranking the one in front has at least the points, on equal points at least the expert picks, on equal ones at least the hard picks, then no later a submission, then no larger a draw hash |
| `Ranking.RankingUnique` | apps/api/src/modules/settlement/ranking.ts:27-40 | Any two sorts of any two permutations of the same entries return one list |
| `Ranking.RankEntriesIsRanking` | apps/api/src/modules/settlement/ranking.ts:38-40 | The ranking is a sorted permutation of the entries |
| `Ranking.PrizesCorrect` | apps/api/src/modules/settlement/ranking.ts:54-76 | For a positive pool: min(entrants, positions) prizes, non-negative, summing exactly to the pool, dust below the number of paid positions, every other prize less than one unit below its renormalised share, non-increasing when shares are; it divides by zero exactly when all paid shares are zero |
| `Ranking.FloorSumBounds` | apps/api/src/modules/settlement/ranking.ts:72-73 | The floored shares sum to at most the pool and miss it by less than one unit per position |
| `Ranking.ShareOfRow` | apps/api/src/modules/settlement/ranking.ts:59-65 | A position is worth the share of the last template row that covers it, divided by the number of positions the row spans and rounded down |
| `Ranking.ExtentIsLast` | apps/api/src/modules/settlement/ranking.ts:59-67 | The paid positions reach exactly to the last position that some row covers |
| `Ranking.PrizesOfRows` | apps/api/src/modules/settlement/ranking.ts:54-76 | With one row per position every place but the first gets pool times its basis points over the sum of the paid basis points, rounded down, and the prizes sum to the pool |
| `Ranking.ComputePrizeAmounts` | apps/api/src/modules/settlement/ranking.ts:54-76 | The nested expansion loops, the slice and the dust patch compute the specified prizes |
| `Leaderboard.SettledOrderIsTheRanking` | apps/api/src/modules/leaderboard/leaderboard.service.ts:41-43 | After the first settlement, in any run, sorting the contest's rows by stored final rank gives the unranked latecomers, in some order, and then the settled ranking; just the ranking if and only if nobody came too late |
| `Leaderboard.LiveOrderIsSettledOrder` | apps/api/src/modules/leaderboard/leaderboard.service.ts:41-53 | If nobody came too late for the settlement, what the leaderboard ranks live, in whatever order the rows are read, is the list it shows after the settlement |
| `Leaderboard.BetterEntriesRankFirst` | apps/api/src/modules/settlement/settlement.service.ts:131-143 | After the first settlement of a run, of two ranked entries the one with more points, or on ties the better one down the chain, has the smaller final rank, and conversely |
| `ContestTransfers.RefundAllOutcome` | apps/api/src/modules/contests/contests.service.ts:188-214 | The refund loop succeeds if and only if the escrow covers one fee per entry not refunded before; then the escrow falls by exactly that, every wallet grows by one fee per newly refunded entry of its owner, no other account moves, and exactly the listed refund keys are used |
| `ContestTransfers.CommissionIsCeiling` | apps/api/src/modules/settlement/settlement.service.ts:64-71 | Gross minus pool is the ceiling of gross times basis points over 10000, and is zero only at zero basis points |
| `ContestTransfers.SettlementLinesValid` | apps/api/src/modules/settlement/settlement.service.ts:81-92 | The settlement journal passes line validation if and only if the commission is not zero |
| `ContestTransfers.PostSettlementIff` | apps/api/src/modules/settlement/settlement.service.ts:81-107 | With an unused settlement key the settlement journal commits and zeroes the escrow if and only if winners do not get the whole gross |
| `ContestTransfers.PayOutEffect` | apps/api/src/modules/settlement/settlement.service.ts:61-107 | A committed payout empties this escrow, leaves the others, and pays the platform the ceiling commission |
| `ContestTransfers.SplitIff` | apps/api/src/modules/settlement/ranking.ts:66-73 | The prize split divides by zero exactly when there is a pool and no paid position has a share above zero |
| `ContestTransfers.PayOutSucceeds` | apps/api/src/modules/settlement/settlement.service.ts:61-107 | A payout of a positive gross commits if and only if the settlement key is new and either the template has no positions, or the rate is positive and any pool can be split |
| `ContestTransfers.WinnerTotal` | apps/api/src/modules/settlement/settlement.service.ts:89-91 | The winner lines, zero prizes filtered out, add to each winner exactly that winner's prize |
| `ContestSafety.EscrowBounded` | apps/api/src/modules/predictions/entries.service.ts:85-119 | In every run with arbitrarily stale guards the ledger is valid and each escrow holds between zero and one fee per active entry |
| `ContestSafety.StepShape` | apps/api/src/modules/contests/contests.service.ts:116-240 | Every step of every operation changes only its own contest, in exactly the way listed for it |
| `ContestSafety.RunKeepsInv` | apps/api/src/modules/contests/contests.service.ts:116-240 | Every run keeps the money invariant, whatever the snapshots and guards were |
| `ContestSafety.RunKeepsUnique` | apps/api/prisma/schema.prisma:652 | In every run a user has at most one entry per contest |
| `ContestSafety.SubmitEffect` | apps/api/src/modules/predictions/entries.service.ts:85-119 | A committed submission adds exactly one active entry and moves one fee from the user's wallet into the escrow, and nothing else, unless its key was used, in which case it moves nothing |
| `ContestSafety.SubmitIff` | apps/api/src/modules/predictions/entries.service.ts:85-119 | A submission is accepted if and only if the contest, the wallet and the escrow exist, the user has no entry in this contest, and the wallet covers the fee or the key was used before |
| `ContestSafety.CancelEffect` | apps/api/src/modules/contests/contests.service.ts:187-240 | What a committed stale cancellation does to a contest: listed entries refunded, each to its own user's wallet, the escrow lowered by one fee per new refund and zero afterwards when it had been seen |
| `ContestSafety.SettleEffect` | apps/api/src/modules/settlement/settlement.service.ts:58-147 | What a committed stale settlement does to a contest: listed entries settled, the escrow emptied under a new settlement key, or nothing moved |
| `ContestSafety.WriteRanksInOrder` | apps/api/src/modules/settlement/settlement.service.ts:131-143 | The rank writes give the ranking the final ranks 1, 2, 3 and so on |
| `ContestSafety.WritePrizesInOrder` | apps/api/src/modules/settlement/settlement.service.ts:109-113 | The prize writes give each ranked entry the prize of its position |
| `ContestGuarantees.EscrowExact` | apps/api/src/modules/predictions/entries.service.ts:85-119 | In every run, stale submissions included, the escrow of an open contest is exactly one fee per charged active entry, and one fee per active entry if and only if no active entry reused a key |
| `ContestGuarantees.FreshIsSafe` | apps/api/src/modules/predictions/entries.service.ts:35-55 | Fresh submissions meet both weaker conditions, the one for empty escrows and the one against double payment |
| `ContestGuarantees.CancelCommitsIff` | apps/api/src/modules/contests/contests.service.ts:187-240 | In every run a pending cancellation commits if it had not seen the escrow, and otherwise if and only if the refunds it still owes use up the escrow; on an open contest, if and only if it lists as many entries as were charged, and with every active entry charged the refund loop never aborts and it must list them all; exactly the listed entries are then newly refunded and the escrow is empty |
| `ContestGuarantees.SettleCommitsIff` | apps/api/src/modules/settlement/settlement.service.ts:58-147 | In every run a pending settlement commits if and only if the platform account exists and there is nothing or nobody to pay, or its key is new, as it is while the contest is scored, and the template has no positions, or the rate is positive and any pool can be split; then exactly the ranked entries are newly settled with their places, and a positive escrow is emptied with the ceiling commission (everything without positions) to the platform |
| `ContestGuarantees.FreshSettlesEverybody` | apps/api/src/modules/settlement/settlement.service.ts:127-147 | With fresh submissions a settlement that commits on a scored contest settles every entry of it |
| `ContestGuarantees.OvertakenCancelIff` | apps/api/src/modules/contests/contests.service.ts:180-185 | In every run a cancellation read before scoring that commits while scoring or after it closes the contest if and only if it had not seen the escrow or lists as many entries as were charged |
| `ContestWallets.RefundsReachOwners` | apps/api/src/modules/contests/contests.service.ts:189-206 | In every run, when a pending cancellation commits, the wallet behind each newly refunded entry grows by exactly the fee and every other wallet stays |
| `ContestGuarantees.WinnersReceivePrizes` | apps/api/src/modules/settlement/settlement.service.ts:73-113 | Each paid position's wallet grows by exactly the prize written to its entry |
| `ContestWallets.PayOutTouchesNobodyElse` | apps/api/src/modules/settlement/settlement.service.ts:81-107 | A committed payout changes no account but this escrow, the platform's and the wallets of the paid places |
| `ContestClosing.ClosedContestsAreEmpty` | apps/api/src/modules/contests/contests.service.ts:223-239 | A cancelled or settled contest has an empty escrow in every run in which a charged submission commits on an open contest with no settlement pending that saw no entrant, and a draft-read cancellation commits before anybody has paid |
| `ContestClosing.SubmissionSafeIff` | apps/api/src/modules/predictions/entries.service.ts:35-55 | The exact condition for one charged submission after such a run: no continuation ever closes its contest over money if and only if the contest is open at the commit and no settlement is pending that saw no entrant |
| `ContestClosing.EmptySettlementStrands` | apps/api/src/modules/settlement/settlement.service.ts:63-147 | A pending settlement that saw no entrant closes the contest over whatever its escrow then holds |
| `ContestClosing.BlindCancellationSafeIff` | apps/api/src/modules/contests/contests.service.ts:187-240 | The exact condition for a cancellation read in draft, after such a run: it always commits, and no continuation ever closes its contest over money if and only if there is no escrow at the commit or nothing in it |
| `ContestPayments.NoDoublePayment` | apps/api/src/modules/settlement/settlement.service.ts:58-107 | In every run in which no charged submission enters a closed contest, cancellations and settlements on stale snapshots in any order and number never leave an entry both refunded and with a prize |
| `ContestPayments.PaidMeansEmpty` | apps/api/src/modules/contests/contests.service.ts:187-233 | In the same runs, once a contest has paid any refund, prize or settlement, the money that left its escrow equals the money that entered |
| `ContestPayments.ZeroBalanceConserves` | apps/api/src/modules/wallet/ledger/ledger.service.ts:76-89 | An account's balance is the money credited to it less the money debited over the whole journal |
| `ContestLateEntries.LateEntryPaysTwiceIff` | apps/api/src/modules/contests/contests.service.ts:174-240 | The exact condition after a charged submission has entered a closed contest: no continuation ever pays anybody twice if and only if no pending cancellation has an entry with a prize as its only refund left and no pending first settlement would pay a refunded entry out of the late fee |
| `ContestLateEntries.LateCancelPaysTwiceIff` | apps/api/src/modules/contests/contests.service.ts:187-233 | Over one late fee a pending cancellation pays an entry twice if and only if it saw the escrow, the entry is its only refund left, and the entry has a prize |
| `ContestLateEntries.LateSettlePaysTwiceIff` | apps/api/src/modules/settlement/settlement.service.ts:58-113 | Over one late fee a pending settlement pays an entry twice if and only if its key is new, the rate is positive, the entry was refunded, and the split gives its place something |
| `ContestLateEntries.HarmlessStep` | apps/api/src/modules/contests/contests.service.ts:174-240 | Without such a threat every step either keeps the late fee where it is or spends it without a double payment |
| `ContestStaleRuns.LateSubmissionStrandsMoney` | apps/api/src/modules/predictions/entries.service.ts:35-55 | A run in which a submission commits after a cancellation and its fee stays in the escrow of a cancelled contest |
| `ContestStaleRuns.BlindCancellationStrandsMoney` | apps/api/src/modules/contests/contests.service.ts:223-233 | A run with fresh submissions in which a cancellation read in draft skips the escrow check and strands a fee |
| `ContestStaleRuns.LateSubmissionAllowsDoublePayment` | apps/api/src/modules/contests/contests.service.ts:174-240 | A run in which a late submission lets an old cancellation refund the winner of a settled contest |
| `ContestStaleRuns.CancellationAfterScoring` | apps/api/src/modules/contests/contests.service.ts:180-185 | A fresh run in which a cancellation read while published commits on a scored contest and refunds its entry |
| `ContestStaleRuns.EmptySettlementStrandsMoney` | apps/api/src/modules/settlement/settlement.service.ts:63-147 | A run in which a submission commits into a scored, still open contest and a settlement read before it closes the contest over the fee |
| `ContestService.Service.PublishContest` | apps/api/src/modules/contests/contests.service.ts:132-147 | Status and escrow are created together; a second escrow aborts both |
| `ContestService.Service.AdvanceContest` | apps/api/src/modules/contests/contests.service.ts:155-166 | The conditional status update moves the contest, and says so, only from the expected status |
| `ContestService.Service.SubmitSlip` | apps/api/src/modules/predictions/entries.service.ts:85-153 | Charge and entry commit together or not at all; an insufficient wallet or a second entry of the user restores the ledger |
| `ContestService.Service.CancelContest` | apps/api/src/modules/contests/contests.service.ts:187-240 | The refund loop, the escrow check and the closing run in place and commit as specified, every refund to the entry's own user, or restore everything |
| `ContestService.Service.WritePrizeRows` | apps/api/src/modules/settlement/settlement.service.ts:109-124 | The prize loop writes the specified entries |
| `ContestService.Service.WriteRankChunks` | apps/api/src/modules/settlement/settlement.service.ts:131-143 | Chunked rank writes equal one pass over the ranking, whatever the chunk size |
| `ContestService.Service.PayWinners` | apps/api/src/modules/settlement/settlement.service.ts:59-107 | Prizes, journal and the zero check run in place; a refusal restores the ledger |
| `ContestService.Service.CloseRanking` | apps/api/src/modules/settlement/settlement.service.ts:127-147 | Ranks are written in chunks of ten thousand and the contest is settled |
| `ContestService.Service.DistributePrizes` | apps/api/src/modules/settlement/settlement.service.ts:58-149 | The settlement transaction runs in place and commits as specified or restores everything |
| `Markets.WinnersAreExact` | apps/api/src/modules/scoring/engine/market-scorers.ts:10-80 | For every market and result the valid selections that score are exactly the winners read off the goals: one, two for double chance, none only for a correct score above nine goals |
| `Markets.PickEarns` | apps/api/src/modules/scoring/engine/market-scorers.ts:82-90 | A valid pick is correct if and only if it is a winner, and earns all of the points if it is and none if it is not |
| `Markets.InvalidSelectionScores` | apps/api/src/modules/scoring/engine/market-scorers.ts:41-66 | A selection outside the schema scores only as the text of a score above nine goals, or as the stored word for a goalless match |
| `Markets.SelectionsCanWin` | packages/contracts/src/markets.ts:12-53 | The valid selections of a market are exactly those that win under some result |
| `Markets.TiersAgree` | packages/contracts/src/enums.ts:68-86 | The table of tiers by market and the table of markets by tier agree |
| `GroupedScoring.GroupKeyInjective` | apps/api/src/modules/scoring/scoring.service.ts:88 | The joined market and selection key determines the pick, whatever a selection contains |
| `GroupedScoring.AddToGroup` | apps/api/src/modules/scoring/scoring.service.ts:87-101 | A pick joins the group of its key, or opens it and is scored once |
| `GroupedScoring.GroupPredictions` | apps/api/src/modules/scoring/scoring.service.ts:86-101 | The grouping loop builds the groups and visits each key once |
| `GroupedScoring.GroupsAreGrouped` | apps/api/src/modules/scoring/scoring.service.ts:86-101 | The groups partition the prediction ids and each carries the score of each of its members |
| `GroupedScoring.ScoreGrouped` | apps/api/src/modules/scoring/scoring.service.ts:86-108 | The bulk updates write exactly the rows and scores that scoring each prediction alone would, for valid picks the rule's points of the winners and nothing for the others, in one statement per distinct pick |
| `GroupedScoring.WriteGroups` | apps/api/src/modules/scoring/scoring.service.ts:102-108 | One bulk update per group writes exactly the predictions of the groups with their own scores |
| `ScoringPipeline.AggregatesAreFolds` | apps/api/src/modules/scoring/scoring.service.ts:50-132 | With any number of workers interleaved statement by statement under the lock, every entry's points are the sum over its scored predictions, its counts are the numbers of its correct ones, in all, in expert and in hard slots, and each scored prediction has its direct score |
| `ScoringPipeline.ScoringIsConfluent` | apps/api/src/modules/scoring/scoring.service.ts:22-43 | Whatever the schedule of results, duplicates, re-runs and crashes, a completed contest has one set of totals that nothing later changes; for an entry with valid picks the points are the rules' points of exactly its winning picks and the counts count them |
| `ScoringPipeline.CompletionNotEarly` | apps/api/src/modules/scoring/scoring.service.ts:157-178 | A contest completes only with every result final and every prediction scored, and emits its event at most once |
| `ScoringPipeline.CompletionNotMissed` | apps/api/src/modules/scoring/scoring.service.ts:157-178 | Once a handler of every match has run to its end after the lock, one of their unlocked checks has completed the contest, unless it was cancelled |
| `ScoringPipeline.LockIsNeverOrphaned` | apps/api/src/modules/scoring/scoring.service.ts:52-59 | In every run the contest lock is held, if at all, by a worker in the middle of its transaction |
| `ScoringPipeline.RecomputeIsFold` | apps/api/src/modules/scoring/scoring.service.ts:110-132 | The set-based recompute leaves every entry, updated or not, with the sum of the points and the counts over its scored rows |
| `ScoringPipeline.FoldCounts` | apps/api/src/modules/scoring/scoring.service.ts:118-131 | The four aggregate columns are the sum of the points and the numbers of correct rows, of correct expert rows and of correct hard rows |
| `ScoringPipeline.CompletedTotals` | apps/api/src/modules/scoring/scoring.service.ts:45-178 | In a completed contest an entry with valid picks has the points of exactly the picks that the goals make winners, and counts of those picks by tier |
| `ScoringPipeline.StepKeepsInv` | apps/api/src/modules/scoring/scoring.service.ts:45-178 | Every statement of every worker keeps the invariant behind these theorems |
| `ScoringWithoutLock.LostUpdate` | apps/api/src/modules/scoring/scoring.service.ts:52-59 | A concrete schedule without the lock in which two workers' recomputes overlap and a contest completes on 20.0 points where 30.0 were scored |
| `ScoringService.Service.ScoreContestMatch` | apps/api/src/modules/scoring/scoring.service.ts:45-145 | The scoring transaction with its selection, grouping, write and sum loops leaves exactly the rows and totals specified |
| `ScoringService.Service.ScorePicks` | apps/api/src/modules/scoring/scoring.service.ts:75-108 | The bulk updates overlay exactly the rows of the match with their scores, for valid picks the rule's points of the winners and nothing for the others |
| `ScoringService.Service.RecomputeTotals` | apps/api/src/modules/scoring/scoring.service.ts:112-132 | Exactly the entries with a scored pick get the sum of the points and the counts over their rows |
| `ScoringService.Service.FinalizeContestIfComplete` | apps/api/src/modules/scoring/scoring.service.ts:157-178 | The two counting loops and the conditional update complete the contest exactly when every match has a final result, every prediction is scored and it is still scoring |
| `ScoringService.GroupTotals` | apps/api/src/modules/scoring/scoring.service.ts:118-131 | The sums grouped by entry are the points and counts of exactly the entries with a scored prediction |
| `ScoringService.CommitIsService` | apps/api/src/modules/scoring/scoring.service.ts:45-145 | A locked worker's commit writes exactly what the service's transaction writes |
| `SlipValidator.ValidateSlotConfiguration` | apps/api/src/modules/predictions/slip-validator.ts:37-52 | The counting loops report a bad configuration exactly when the slots are not ten split 2/3/3/2 |
| `SlipValidator.ValidateSlip` | apps/api/src/modules/predictions/slip-validator.ts:54-119 | The loops with the seen-set report the specified violations in order |
| `SlipValidator.CheckPredictions` | apps/api/src/modules/predictions/slip-validator.ts:69-106 | The loop with its early continues collects the specified reports and the seen set |
| `SlipAcceptance.AcceptedIff` | apps/api/src/modules/predictions/slip-validator.ts:54-119 | With distinct slots there is no violation if and only if the slots are balanced and the predictions are a bijection onto them with matching tier and valid selection |
| `SlipAcceptance.ReportsAddUp` | apps/api/src/modules/predictions/slip-validator.ts:69-116 | For a slip of the right length the missing slots are as many as the unknown and duplicate predictions together |
| `SlipAcceptance.ReportsExplained` | apps/api/src/modules/predictions/slip-validator.ts:37-119 | Exactly which report a slip gets: the slot configuration if it is not balanced, else the count if it is not ten, else unknown, duplicate, mismatched tier and invalid selection on the first pick of a slot, missing slot |
| `SlipScore.MaxSlipScore` | apps/api/src/modules/admin/settings-admin.controller.ts:235-247 | The loop computes twice the best easy, three times the best medium, three times the best hard and twice the best expert rule |
| `SlipScore.BestOfTier` | apps/api/src/modules/admin/settings-admin.controller.ts:238-243 | The filtered maximum is the best rule of the tier, at least zero |
| `SlipScore.BestIsMaximum` | apps/api/src/modules/admin/settings-admin.controller.ts:238-243 | The best of a tier bounds every rule of the tier and is one of them, or zero |
| `SlipScore.LastRuleDecides` | apps/api/src/modules/scoring/scoring.service.ts:71-73 | A market's points are those of its last rule, and a market without a rule has none |
| `SlipScore.AcceptedTiers` | apps/api/src/modules/predictions/slip-validator.ts:37-52 | An accepted slip has as many picks of each tier as the distribution says |
| `SlipScore.DefaultPotential` | packages/contracts/src/scoring.ts:23-70 | Under the default points every accepted slip is worth exactly 1500, which is the default slip maximum |
| `SlipScore.TotalAtMostMaximum` | apps/api/src/modules/admin/settings-admin.controller.ts:234-247 | In every state of every scoring run, for any rule set and results, an entry with an accepted slip has at most the administrators' maximum |
| `WithdrawalGuarantees.PendingIsWhatIsHeld` | apps/api/src/modules/withdrawals/withdrawals.service.ts:65-313 | In every interleaving, stale decisions included, a user's pending balance is the sum of holds less settlements and reversals; terminal statuses have their journal entry; settlements were approved by somebody else and paid |
| `WithdrawalGuarantees.NoLimbo` | apps/api/src/modules/withdrawals/withdrawals.service.ts:231-313 | With rejections of withdrawals that nobody has approved and approvals of undecided or approved ones, each withdrawal is settled or returned at most once and the pending balance is exactly the sum of the open holds |
| `WithdrawalGuarantees.NeverShort` | apps/api/src/modules/withdrawals/withdrawals.service.ts:240-311 | In the same runs no settlement or reversal that may commit aborts for lack of funds |
| `WithdrawalGuarantees.ApprovalSafeIff` | apps/api/src/modules/withdrawals/withdrawals.service.ts:151-167 | An approval followed by the gateway's payment settles the hold, and only once, if and only if it commits on a withdrawal that is undecided or already approved |
| `WithdrawalGuarantees.RejectionReturnsIff` | apps/api/src/modules/withdrawals/withdrawals.service.ts:181-188 | A rejection returns a hold nobody approved if and only if its guard still held at the commit |
| `WithdrawalGuarantees.RejectionSafeIff` | apps/api/src/modules/withdrawals/withdrawals.service.ts:181-188 | After such a run a rejection never leads to a withdrawal both settled and returned, whatever fresh steps follow, if and only if nobody has approved it, or the gateway does not pay it, or the hold is gone so that the rejection aborts; while the hold is not settled and the gateway pays it, if and only if nobody has approved it |
| `WithdrawalGuarantees.RepeatedAnswer` | apps/api/src/modules/withdrawals/withdrawals.service.ts:231-275 | A repeated answer moves no money and repairs a status that a late PROCESSING write overwrote |
| `WithdrawalMoves.RequestEffect` | apps/api/src/modules/withdrawals/withdrawals.service.ts:73-107 | A request is accepted if and only if the wallet covers it; it then moves the amount from the wallet to the pending account and nothing else, and the new row is under review exactly when asked |
| `WithdrawalMoves.ApprovalEffect` | apps/api/src/modules/withdrawals/withdrawals.service.ts:151-167 | An approval records its administrator on somebody else's withdrawal and changes nothing else |
| `WithdrawalMoves.SettlementEffect` | apps/api/src/modules/withdrawals/withdrawals.service.ts:240-275 | A settlement moves the hold from the pending account to the outside, once, and marks the row paid, or changes nothing |
| `WithdrawalMoves.ReversalEffect` | apps/api/src/modules/withdrawals/withdrawals.service.ts:277-313 | A reversal moves the hold back to the wallet of the user who asked, once, and sets the status, or changes nothing |
| `WithdrawalMoves.AnswerEffect` | apps/api/src/modules/withdrawals/withdrawals.service.ts:231-275 | An answer on a row read as paid or failed does nothing; another settles or returns the hold |
| `WithdrawalMoves.AcceptanceEffect` | apps/api/src/modules/withdrawals/withdrawals.service.ts:223-226 | An accepted payout only shows as PROCESSING |
| `WithdrawalStaleRun.StaleApprovalPaysTwice` | apps/api/src/modules/withdrawals/withdrawals.service.ts:151-167 | A run in which an approval commits after a rejection: one hold is returned and paid, and the next payout finds the pending account empty |
| `WithdrawalStaleRun.StaleRejectionPaysTwice` | apps/api/src/modules/withdrawals/withdrawals.service.ts:181-198 | A run in which a rejection commits after an approval, with the same outcome |
| `Withdrawals.StepKeepsInv` | apps/api/src/modules/withdrawals/withdrawals.service.ts:65-313 | Every commit keeps the withdrawal invariant |
| `WithdrawalService.Service.RequestWithdrawal` | apps/api/src/modules/withdrawals/withdrawals.service.ts:73-107 | The request creates the row and the hold together or neither |
| `WithdrawalService.Service.ApproveWithdrawal` | apps/api/src/modules/withdrawals/withdrawals.service.ts:151-167 | An approval is recorded exactly for an undecided withdrawal of somebody else |
| `WithdrawalService.Service.RejectWithdrawal` | apps/api/src/modules/withdrawals/withdrawals.service.ts:181-198 | A rejection returns the hold exactly for an undecided withdrawal |
| `WithdrawalService.Service.RecordPayout` | apps/api/src/modules/withdrawals/withdrawals.service.ts:217-227 | The gateway's direct result is followed by a reversal, a PROCESSING write, or that write and a settlement |
| `WithdrawalService.Service.SettleWithdrawal` | apps/api/src/modules/withdrawals/withdrawals.service.ts:231-275 | A terminal answer is ignored on a paid or failed row and otherwise settles or returns the hold |
| `WithdrawalService.Service.Reverse` | apps/api/src/modules/withdrawals/withdrawals.service.ts:277-313 | The reversal posts and writes the status in one transaction, or changes nothing |
| `WithdrawalService.Service.PostInTransaction` | apps/api/src/modules/withdrawals/withdrawals.service.ts:240-255 | A posting through the pending account commits with the account it creates, or restores everything |
| `TokenFamilies.OneLiveToken` | apps/api/src/modules/auth/token.service.ts:65-95 | In every run whose rotations, split into guard read, consumption and issue, issue in time, a family has at most one unconsumed, unrevoked token and one user |
| `TokenFamilies.RotatesIff` | apps/api/src/modules/auth/token.service.ts:65-95 | In the same runs a token rotates if and only if it is the unconsumed last token of a family that was not burned, has not expired and its user is not disabled; the new token keeps user and family and is the only live one |
| `TokenFamilies.RefusalAnswers` | apps/api/src/modules/auth/token.service.ts:65-85 | What rotation answers to an unknown, used or revoked, expired, or disabled token, in that order of precedence, and that only reuse changes anything |
| `TokenFamilies.LoginStartsFamily` | apps/api/src/modules/auth/token.service.ts:41-63 | A login starts a family of its own with one live token for that user |
| `TokenFamilies.ReuseBurnsFamily` | apps/api/src/modules/auth/token.service.ts:72-79 | Showing a consumed or revoked token, or logging out with any token, revokes the whole family |
| `TokenFamilies.DeadForever` | apps/api/src/modules/auth/token.service.ts:65-108 | In the same runs a burned family stays burned and no token of it ever rotates again |
| `TokenFamilies.UsedTokenIsReuse` | apps/api/src/modules/auth/token.service.ts:72-90 | In every run whatever, a consumed token never rotates again, and showing it revokes every descendant |
| `TokenFamilies.RotationSafeIff` | apps/api/src/modules/auth/token.service.ts:65-95 | Over runs: a rotation that has read its token live and consumed it issues the next one without the family ever having two live tokens or coming back after a burn, whatever follows in time, if and only if since its guard read nobody issued another successor of the token and nobody burned the family |
| `TokenFamilies.RunOvertakes` | apps/api/src/modules/auth/token.service.ts:65-108 | A token has a successor or is burned after a run if and only if it was before or some step of the run issued one or burned its family |
| `TokenFamilies.OverlappingRotations` | apps/api/src/modules/auth/token.service.ts:87-94 | Runs with a late second write: two live tokens after two rotations that read the same token, and a family that rotates again after a logout between the writes |
| `TokenFamilies.TokenService.RotateToken` | apps/api/src/modules/auth/token.service.ts:65-95 | Rotation checks, burns, consumes and issues as specified |
| `TokenFamilies.TokenService.RevokeFamily` | apps/api/src/modules/auth/token.service.ts:74-77 | The conditional bulk revocation revokes exactly the family |
| `TokenFamilies.TokenService.IssueToken` | apps/api/src/modules/auth/token.service.ts:41-63 | A new session joins the given family or starts its own |
| `TokenFamilies.TokenService.Revoke` | apps/api/src/modules/auth/token.service.ts:98-108 | Logout burns the family of a known token and ignores an unknown one |
| `RateLimiter.CallsAreSpaced` | apps/api/src/modules/sports/adapters/football-data.adapter.ts:113-137 | In every run of requests, failures and 429 retries consecutive provider calls start at least 6200 ms apart |
| `RateLimiter.AtMostTenAMinute` | apps/api/src/modules/sports/adapters/football-data.adapter.ts:113-137 | Any half-open 60-second window of any run contains at most ten provider calls |
| `RateLimiter.CallsOfRequest` | apps/api/src/modules/sports/adapters/football-data.adapter.ts:113-137 | A request calls once, at once if the gap is over and otherwise when it is, and after a refusal exactly once more, no sooner than thirty seconds later |
| `RateLimiter.Adapter.Request` | apps/api/src/modules/sports/adapters/football-data.adapter.ts:113-131 | A request waits for the gap, calls, and retries once after the back-off, as specified |
| `RateLimiter.Adapter.Gap` | apps/api/src/modules/sports/adapters/football-data.adapter.ts:133-137 | The gap waits until the minimum distance from the last request, or not at all, and records the time |
| `Outbox.EveryResultHasItsEvent` | apps/api/src/modules/sports/results.service.ts:27-41 | Whatever fails, a fixture is final exactly when it has an event row, it has one, and no row is marked whose job the queue never took |
| `Outbox.InBatchIff` | apps/api/src/infrastructure/outbox/outbox.relay.ts:33-37 | A row is in the batch if and only if it is unpublished and fewer unpublished rows than the batch size are older |
| `Outbox.OldestOtherIsPublished` | apps/api/src/infrastructure/outbox/outbox.relay.ts:33-62 | While fewer rows than the batch size keep failing, the next tick publishes the oldest other row |
| `Outbox.FailingBatchStarves` | apps/api/src/infrastructure/outbox/outbox.relay.ts:33-62 | A hundred oldest rows that keep failing starve every later event, however many ticks run |
| `Outbox.CleanTick` | apps/api/src/infrastructure/outbox/outbox.relay.ts:33-51 | A tick without failures takes a full batch off the backlog, or all of it |
| `Outbox.TickDelivers` | apps/api/src/infrastructure/outbox/outbox.relay.ts:33-62 | A tick that does not die marks a row of its batch if all went well, raises its attempts if something failed, hands it to the queue unless the queue refused, and leaves the other rows alone |
| `Outbox.BatchFacts` | apps/api/src/infrastructure/outbox/outbox.relay.ts:33-37 | The batch is unpublished rows in order of creation, as many as there are up to the limit |
| `Outbox.OutboxRelay.Relay` | apps/api/src/infrastructure/outbox/outbox.relay.ts:29-66 | The relay loop publishes, then marks, in batch order, and does nothing while a tick runs |
| `Outbox.OutboxRelay.FindBatch` | apps/api/src/infrastructure/outbox/outbox.relay.ts:33-37 | The query returns the specified batch |
| `Outbox.OutboxRelay.Deliver` | apps/api/src/infrastructure/outbox/outbox.relay.ts:40-61 | One row is added, marked or counted as failed as specified |

## Left out

- ContestPayments.NoDoublePayment: needs charged submissions to avoid closed contests, because a run without that refutes it; what then decides is `LateEntryPaysTwiceIff`.
- ContestClosing.ClosedContestsAreEmpty: needs safe submissions and sighted cancellations, because runs without either refute it; `SubmissionSafeIff` and `BlindCancellationSafeIff` say that neither condition is too strong.
- ContestGuarantees.EscrowExact: equals one fee per active entry only when no entry reused a key; the inequality of `EscrowBounded` needs neither condition.
- WithdrawalGuarantees.NoLimbo: needs the decisions named under Assumptions, because `StaleApprovalPaysTwice` and `StaleRejectionPaysTwice` refute it otherwise; `PendingIsWhatIsHeld` needs none.
- WithdrawalGuarantees.NeverShort: needs the same decisions and the seeded external account.
- ScoringPipeline.CompletionNotMissed: says nothing about a match whose event was consumed before the lock, which the code never picks up again.
- TokenFamilies.OneLiveToken: needs second writes that are not late, because `OverlappingRotations` refutes it otherwise.
- SlipAcceptance.AcceptedIff: needs distinct slot identifiers, which the database gives.
- Ranking.PrizesCorrect: payout templates with a missing position are not covered; no code path creates one.
- SlipValidator.ValidateSlip: violation messages are not modelled, only codes and slots.
- Outbox.CleanTick: job retries, retention of old job identifiers and the dispatch table of the event worker are not modelled; scoring and settlement are instead proved under arbitrary repetition.
- Kick-off times, the lock time check, entry limits, the 64-bit range of amounts and other currencies.
- Deposits are one foreign posting under their own key; crediting once is an instance of ledger replay.
- Notifications, audit records, e-mails, outbox rows of contests and withdrawals, fraud scores, one-time codes and bank accounts.
- Risk meter and difficulty engine: floating point, and neither affects scoring or money.
- The leaderboard cache and live push: stale for some seconds by design.
- Hashing, encryption and signatures: hashes are abstract and injective; access tokens are not modelled.
- Fixture synchronisation, the results poller, response caching and response mapping of the sports provider.
- Editing, archiving and listing of contests, rule sets and templates.
- The web application, controllers, guards and schemas, apart from the minimum of a withdrawal.
