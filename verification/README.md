# Verified model of the game's money core

The server moves real tokens for a game: players escrow wagers on raids, raids drain the vaults of
asteroids, mining issues credits against a funded treasury, and credits are bridged to the chain. This
project models the parts of the server that decide amounts and order of those movements, and proves
what they keep over whole runs. `dafny verify dfyconfig.toml` checks everything.

Token amounts are `real` (wagers may be fractional), `Math.floor` is `Floor`, raw chain units are whole
numbers kept in `real`, clocks are integer milliseconds. Uuids are fresh names. Cooldowns, immunity,
stake tiers, defense power, prices and random rolls come in as parameters.

## Modules

| file | what it models |
|---|---|
| `Prelude.dfy` | floors, even shares, sums over sequences and maps, wallet balances |
| `Sorting.dfy` | the stable descending sort of `Array.prototype.sort` |
| `Settlement.dfy` | the loss split, ledger resolution, settlement plans and payment legs |
| `Outbox.dfy` | the durable settlement outbox of one wager as a step system with crashes and reboots |
| `EscrowManager.dfy` | the escrow manager's records and loops, tied to the step system |
| `EscrowTreasury.dfy` | the escrow wallet's balance under all interleavings of transfers, with the rent-offset burn |
| `EscrowDeposits.dfy` | what solvency asks of the accepted deposits: a transaction of its own for each wager |
| `EscrowCounterexamples.dfy` | runs in which a rent burn, or one transaction for two wagers, leaves the escrow short |
| `DepositGate.dfy` | building and verifying a wager deposit |
| `BetLedger.dfy` | raid pools, bets and the per-wallet index |
| `Expeditions.dfy` | the expedition tracker and its five views of who raids where |
| `RaidVault.dfy` | raid vaults, recirculation, and what one sweep does to all vaults |
| `RaidEngine.dfy` | who wins a raid, what is stolen, who is credited |
| `GameWorld.dfy` | the world: from a verified deposit to exactly one settlement plan |
| `Fates.dfy` | who gets each wager: over every run, what became of its raid decides whom its plan pays |
| `EndToEnd.dfy` | the world and the escrow manager as one step system, from deposit to payment |
| `Payments.dfy` | from a raid's outcome to tokens moved, in runs without mishaps |
| `DiscoveryEngine.dfy` | discovery counts, finder choice and shares |
| `EmissionGovernor.dfy` | the backing taper and the rolling daily cap |
| `YieldOrchestrator.dfy` | the vault cut, floored shares and finder bonus of one discovery |
| `Issuance.dfy` | the bound on outstanding credits over whole runs of discoveries, bridging, spending and reboots |
| `CreditLedger.dfy` | pending yield, its audit log, and bridging under concurrency |
| `Refinery.dfy` | refinery pools and the hourly distribution |
| `Stakes.dfy` | stake records, wallet and asteroid totals, the syndicate founding burn |
| `RedeemMatcher.dfy` | the instruction gate before the treasury signs a redeem |
| `HoldEstimator.dfy` | the reverse balance simulation that dates a wallet's holding |
| `RateLimits.dfy` | fixed and sliding rate-limit windows over whole traces |

State that the server updates in place is a class whose methods are proved against functions on values;
what the functions keep over all runs is proved as lemmas about them. The step systems (`Outbox`,
`EscrowTreasury`, `EndToEnd`, `Payments`, `Credits`, `GameWorlds`, `Issuance`, `RateLimits`) interleave their steps at
the server's await points, so their theorems hold for every order in which those steps can happen.

## What the code does not promise

Where a natural property is false of the code, the model keeps the code and proves where the line is.

- The escrow balance does not always cover what is owed, because a rent burn is decided on a balance and a
  liability that need not hold any more, or not yet. On boot each orphaned wager is refunded as its row is
  loaded (server/chain/escrow-manager.ts:252-270), so the first refund sees only its own liability
  (`BootRefundCanBurnBacking`); and of two overlapping transfers one can decide on the balance read before the
  other was paid (`OverlappingRefundsCanBurnBacking`). Both reach a balance of 95 with 100 owed, the second with
  everything loaded and no crash. A burn is safe exactly when it fits, together with the burns already under
  way, above what is owed when it is sent (`SendIsSafeExactlyWhen`, `BurnsAreSafeExactlyWhen`); for the guard on
  the figures it reads the line is `GuardIsSafeExactlyWhen`. Solvency holds over every run in which all records
  are loaded and the guard, taken with the balance of the moment of sending and the burns under way, still
  passes and every accepted deposit has a transaction of its own (`EscrowStaysSolvent`), and with nothing to
  spare for lost confirmations when there are none (`EscrowCoversEverything`).
- Verifying a deposit neither records its signature nor asks that the transaction carry one memo only
  (server/chain/bet-escrow-chain.ts:471-540), so the escrow can fall short without any burn. A transaction verified
  for one raid verifies for another of the same wager exactly when its logs carry that raid's tag as well
  (`VerifiesForRaidExactlyWhen`), so one transfer with two memos pays for two wagers (`TwoMemosVerifyTwice`,
  `OneTransactionTwoWagers`: 200 owed on a balance of 100). A deposit as the server builds it carries one memo and
  verifies for its own raid, but for the disguised memos below (`OneMemoOneRaid`). Whatever else happens, a list of
  accepted deposits is safe exactly when no two of them share a transaction (`SolventExactlyWhenDistinct`), and one
  more deposit exactly when what it brings covers it together with what is to spare (`DepositIsSafeExactlyWhen`).
- A sweep can start on a record whose plan is still being put (server/chain/escrow-manager.ts:131-136, 295-301).
  If its first leg lands and the process dies before that put completes, the leg is forgotten and boot refunds
  the whole wager: `OvertakenPutPaysTwice`. That is the only way tokens move under a plan that is lost
  (`StraysExactlyWhen`).
- Discovery credits, the finder's bonus included, stay within the scaled yield for every yield exactly
  when the vault cut is at least the bonus of 20 % (`VaultMustCoverBonus`); the cut is configurable
  through `RAID_VAULT_PERCENT`. The governor's taper keeps a whole yield within the headroom exactly
  when the yield fits the taper band (`FitsExactlyWithinBand`).
- Credits whose headroom has been issued again can come back to the balances, since the governor's headroom counts
  pending credits only: a failed bridge refunds what was in flight (`RefundCanExceedBudget`), a reboot hands back
  what was spent since the last boot (`RebootCanExceedBudget`). Both reach 64 credits on a budget of 40. Pending
  credits with those in flight and those spent since boot stay within the budget plus the most that was in flight or
  spent at a discovery, plus whatever was granted outside the governor (`OutstandingWithinBudget`, `BudgetHolds`).
  Between grants the budget is safe exactly when these three sums together fit it (`WithinBudgetExactlyWhen`,
  `DiscoveryIsSafeExactlyWhen`).
- A bridge that lands on the chain and still throws, on a confirmation timeout for instance
  (server/chain/redeemer.ts:354-366), is refunded all the same (server/net/gateway.ts:1307-1309), so a wallet can
  draw more than it was granted: 20 for 10 in `MisreportedBridgePaysTwice`. What it draws never exceeds the grants
  and the misreported bridges together, nor the grants alone in runs without one (`NoDoubleSpend`). Once some have
  been misreported, every further run stays within the grants exactly when at least as much has been stranded by
  reboots (`DrawsWithinGrantsExactlyWhen`).
- Spending credits in game is not in the audit log, so restoring from the log on boot hands back what
  was spent since the previous boot (`RebootReturnsSpending`).
- The daily cap is described as a hard ceiling (server/game/emission-governor.ts:16-17) but is tested
  before issuing: the last 24 hours stay below the cap plus the largest single discovery (`RollingCap`), no
  smaller bound will do (`BoundIsTight`, `CapIsOvershot`), and the ceiling holds exactly for the logs in which
  every issue fits what is left of the cap (`CeilingHoldsExactlyWhen`). The window is in memory only
  (server/game/emission-governor.ts:80-81), so all this is per process: over restarts the bound is multiplied by
  the number of processes (`RollingCapOverRestarts`).
- `checkAction` is described as a sliding window (server/verification/anti-cheat.ts:304-309) but is a fixed one. A
  run keeps the limit in every interval of one window length exactly when each action was let in while fewer than
  the limit of the earlier ones were younger than the window (`LimitHoldsExactlyWhen`); every run does exactly when
  the window is one millisecond or the limit is zero (`LimitBoundsExactlyWhen`). For every other setting twice the
  limit is reached (`TwiceIsReached`), and never more exactly as long as the window is at most a day and a
  millisecond (`BoundedExactlyForShortWindows`).
- A transfer from a wallet to itself is undone as if it were inbound, so the simulation is short by exactly what
  the wallet sent itself (`SimulationFollowsReplay`). The hold is then dated too late, never too early
  (`EstimateIsSound`, `SelfTransferUndercounts`), and it is dated right exactly when those transfers since the
  reported dip are less than what the simulation is short of the requirement (`EstimateIsExactlyWhen`).
- The wager memo is matched as a substring, so the memo of a larger wager can contain the tag of a
  smaller one (`MemoAloneIsNotEnough`): exactly when the printed amount is a prefix of the larger one's, or when
  the raid id ends in the memo prefix and doubles as an amount (`MemoMatchesExactlyWhen`). A tag that ended with
  the colon would bind raid and amount (`TerminatedTagBinds`); as it is, the exact balance gate ties a
  transaction to one raw amount (`OneAmountPerTransaction`), though not to one wager.

The outstanding liability follows the code (the sum of pending balances,
server/game/stake-manager.ts:525-527), not the lifetime difference that the governor's header describes.

## Model

| member | source | states |
|---|---|---|
| Settlement.EnvironmentSplitIsValid | server/game/bet-escrow.ts:124-144 | whatever the environment holds, the split in force is non-negative and sums to 10000; a usable setting is taken as given, a missing or negative share is its default, and a sum other than 10000 gives 40/40/20 |
| Settlement.SpoilsWithinPool | server/game/bet-escrow.ts:382-394 | floored, stake-weighted spoils are positive, never exceed the defender pool and fall short of it by less than one token per defender |
| Settlement.EachDefenderGets | server/game/bet-escrow.ts:382-394 | each defender with a stake gets exactly the floor of their stake-weighted part of the pool, everybody else nothing |
| Settlement.SpoilsAreProportional | server/game/bet-escrow.ts:382-394 | with any number of stakes a wallet is paid at most its part of the pool and misses less than one token a stake |
| Settlement.ResolutionIsExact | server/game/bet-escrow.ts:364-404 | for any bets, stakes and split, returns, spoils, recirculation and burn are non-negative and add up exactly to the bets |
| Settlement.ResolutionFollowsSplit | server/game/bet-escrow.ts:364-404 | on a defender win each share is its configured percentage up to rounding, at most one token a bet for the pools and two for the burn; what defenders do not get is recirculated |
| Settlement.LegsFollowPlan | server/chain/escrow-manager.ts:148-170 | the legs built from any plan are positive, undone, carry exactly the plan's positive amounts, payouts first and burn last |
| Settlement.LegsPayAsPlanned | server/chain/escrow-manager.ts:148-170 | a return stands alone and goes whole to its wallet; otherwise each wallet's payout legs move exactly the plan's positive payouts to it, and recirculation and burn legs the plan's amounts |
| Settlement.WagerSplitsExactly | server/game/world.ts:798-838 | ledger resolution, plan and legs composed: on either outcome the legs of a positive wager are positive and sum exactly to it |
| Settlement.WagerGoesTo | server/game/world.ts:798-838 | ledger resolution, plan and legs composed: a won wager is one return of all of it to its wallet; a lost one pays each defender their share, recirculates the floored percentage and what flooring left over, and burns the rest |
| Settlement.SettlementFollowsResult | server/game/world.ts:813-838 | for any resolution: the plan returns the whole wager on a win and otherwise moves the resolution's own payouts, recirculation and burn |
| Settlement.ForfeitAndRefundAreExact | server/game/world.ts:893-908 | abandoning burns the whole wager, a refund returns the whole wager, each as a single leg |
| Outbox.StepKeepsInv | server/chain/escrow-manager.ts:123-301 | every step of the outbox, a sweep ahead of the plan's put, crash and reboot included, keeps the accounting of landings, done flags, retries and records |
| Outbox.PaidAtMostOnce | server/chain/escrow-manager.ts:123-219 | in every run a leg moves tokens at most once plus the confirmations of it that were lost, exactly so once the record is dropped; in an undisturbed run none is lost and no earlier plan has moved anything |
| Outbox.StraysExactlyWhen | server/chain/escrow-manager.ts:131-136 | tokens move under a plan that is then forgotten exactly when a sweep got ahead of the plan's put, its first leg landed and the process died before the put completed |
| Outbox.OvertakenPutPaysTwice | server/chain/escrow-manager.ts:295-301 | a run of that kind: a wager is refunded twice, moving twice its amount |
| Outbox.TokensMoved | server/chain/escrow-manager.ts:123-219 | in every run the tokens moved for a wager are at most its amount, its lost confirmations and what strayed under forgotten plans, and exactly that once it is paid |
| Outbox.DroppedOnlyWhenPaid | server/chain/escrow-manager.ts:208-211 | a record leaves the store only when every leg has landed and the legs sum to the wager |
| Outbox.DoneFlagsArePrefix | server/chain/escrow-manager.ts:181-207 | done flags are a prefix of the legs in memory and in the store, memory at most one ahead |
| Outbox.LegsLandInOrder | server/chain/escrow-manager.ts:158-168 | a leg has landed only if every earlier leg has, so the burn is sent after all payouts and the recirculation |
| Outbox.NeverStuck | server/chain/escrow-manager.ts:177-219 | a planned wager that is neither settled nor parked always has a next step |
| Outbox.SettlesOrParks | server/chain/escrow-manager.ts:188-219 | without a crash a plan takes at most legs plus retry budget chain calls, ends, and ends settled or parked |
| EscrowManagement.EscrowManager.RecordBooked | server/chain/escrow-manager.ts:95-115 | the active record is in memory and in the store |
| EscrowManagement.EscrowManager.BuildLegs | server/chain/escrow-manager.ts:148-170 | the loop builds the legs of LegsFollowPlan and LegsPayAsPlanned; each wallet's payout legs sum to the plan's positive payouts to it |
| EscrowManagement.EscrowManager.DriveLegs | server/chain/escrow-manager.ts:181-207 | the leg loop stops at the first failure with memory and store agreeing on the marked legs and the retry count |
| EscrowManagement.EscrowManager.RunLegs | server/chain/escrow-manager.ts:177-219 | a record in flight is left alone; otherwise it is dropped from memory and store when all legs land and filed in both when one fails |
| EscrowManagement.EscrowManager.Settle | server/chain/escrow-manager.ts:123-137 | the record, booked or made up from the plan, gets fresh legs, is stored and run |
| EscrowManagement.EscrowManager.ReconcileOnBoot | server/chain/escrow-manager.ts:240-276 | the boot loop handles every row in store order |
| EscrowManagement.EscrowManager.Sweep | server/chain/escrow-manager.ts:295-301 | every visited settling record that is not in flight ends, in memory and store, as a run of its legs from where it stood leaves it, dropped when all land; every other record is untouched |
| EscrowManagement.SweptOneMore | server/chain/escrow-manager.ts:295-301 | visiting one more record depends only on how that record stood when the sweep began, not on the runs before it |
| EscrowManagement.EscrowManager.OutstandingLiability | server/chain/escrow-manager.ts:304-310 | the sum of active and settling amounts over all records |
| EscrowManagement.DriveIsARun | server/chain/escrow-manager.ts:177-219 | the imperative leg loop is a crash-free run of the outbox step system that reaches the same record in memory and store and loses no confirmation |
| EscrowManagement.SettleIsAStep | server/chain/escrow-manager.ts:123-137 | the record the manager settles, booked or made up, is the one the step system plans, with the deposit's own wallet and amount |
| EscrowManagement.LoadRefundsOrResumes | server/chain/escrow-manager.ts:252-275 | boot refunds an orphaned wager whole to its own wallet with a fresh retry budget, resumes a settling one as it was stored and leaves a parked one |
| EscrowManagement.BootHandlesEveryRow | server/chain/escrow-manager.ts:252-275 | boot decides each row by its own status alone: parked stays, orphaned is refunded, settling resumes; memory and store agree on all of them |
| EscrowTreasury.LegsFitInDeposit | server/chain/bet-escrow-chain.ts:233-235 | flooring each leg to raw units never asks for more than flooring the wager |
| EscrowTreasury.LiabilityCoversOwed | server/chain/escrow-manager.ts:304-310 | with everything loaded, the reported liability in raw units covers every active wager and every undone leg |
| EscrowTreasury.LiabilityIsOverRecords | server/chain/escrow-manager.ts:304-310 | the liability of the step system is the sum the manager computes over its records |
| EscrowTreasury.GuardIsSafeExactlyWhen | server/chain/bet-escrow-chain.ts:643-663 | whatever the balance read, what is owed and the burns under way stay covered exactly when the liability read, or the payment, is at least those two and what has left the wallet since the read |
| EscrowTreasury.CrashDebtOnlyInWindow | server/chain/escrow-manager.ts:185-187 | a crash makes a wager owe more only between a confirmation and its put, or when a parking was not yet saved |
| EscrowTreasury.ActKeepsBacked | server/chain/bet-escrow-chain.ts:600-682 | each deposit, local step, transfer stage, confirmation or power loss keeps the balance covering what is owed and the burns under way, up to what lost confirmations reopened, if a burn is decided on figures good when it is sent and a deposit is verified on a transaction not used before |
| EscrowTreasury.EscrowStaysSolvent | server/chain/bet-escrow-chain.ts:600-682 | the same over every interleaved run from an empty escrow |
| EscrowTreasury.EscrowCoversEverything | server/chain/escrow-manager.ts:185-187 | if in such a run no call lands unreported and no crash cuts off a confirmation from its put, nothing is reopened and the balance alone covers everything |
| EscrowTreasury.BurnsAreSafeExactlyWhen | server/chain/bet-escrow-chain.ts:643-663 | every continuation whose further burns are decided on good figures and whose deposits have new transactions stays solvent exactly when the balance covers what is owed and the burns under way |
| EscrowTreasury.SendIsSafeExactlyWhen | server/chain/bet-escrow-chain.ts:653-663 | a burn about to be sent keeps all of those solvent exactly when it fits above what is owed and the burns under way |
| EscrowTreasury.DepositIsSafeExactlyWhen | server/net/gateway.ts:1119-1206 | a deposit accepted on any transaction, used before or not, keeps all of those solvent exactly when what it brings, together with what is to spare, covers it |
| EscrowTreasury.UndisturbedSendIsFresh | server/chain/bet-escrow-chain.ts:609-663 | with every record loaded, the code's own guard is enough for a transfer whose balance is still there on top of the burns under way |
| EscrowDeposits.SolventExactlyWhenDistinct | server/chain/bet-escrow-chain.ts:471-540 | for any list of deposits the escrow can accept: every run that accepts them, with whatever else in between but burns only on good figures, stays solvent exactly when no two were verified on the same transaction |
| EscrowCounterexamples.BootRefundCanBurnBacking | server/chain/escrow-manager.ts:252-270 | a concrete run: after a crash with two booked wagers the first refund burns backing of the second |
| EscrowCounterexamples.OverlappingRefundsCanBurnBacking | server/chain/bet-escrow-chain.ts:610-663 | a concrete run with everything loaded and no crash: a refund decides on the balance read before another was paid and burns backing of a third wager |
| EscrowCounterexamples.OneTransactionTwoWagers | server/net/gateway.ts:1179-1206 | a concrete run: two wagers of 100 accepted on one transaction leave 200 owed on a balance of 100 |
| DepositGates.OneAmountPerTransaction | server/chain/bet-escrow-chain.ts:499-530 | one transaction verifies for at most one raw wager amount, with a dedicated and with a commingled fee wallet; how many wagers of that amount it verifies for is VerifiesForRaidExactlyWhen |
| DepositGates.VerifiesForRaidExactlyWhen | server/chain/bet-escrow-chain.ts:471-540 | a transaction verified for one raid verifies for another of the same wager exactly when some log line carries the other's tag too |
| DepositGates.TwoMemosVerifyTwice | server/chain/bet-escrow-chain.ts:485-490 | one transfer of the wager that carries the built memos of two raids verifies for both, whatever the affordable balances |
| DepositGates.OneMemoOneRaid | server/chain/bet-escrow-chain.ts:485-490 | a transaction with one built memo verifies only for that memo's raid, and for amounts that print as a prefix of the memo's, unless the memo is a disguised one |
| DepositGates.BuiltDepositVerifies | server/chain/bet-escrow-chain.ts:382-437 | the deposit the server builds, executed on any affordable balances, passes verification |
| DepositGates.VerifiedDepositIsFunded | server/chain/bet-escrow-chain.ts:508-530 | a verified deposit did not fail, has raised escrow by at least the wager, lowered the depositor by wager and fee, and paid a separate fee wallet exactly the fee |
| DepositGates.FeeMonotone | server/chain/bet-escrow-chain.ts:181-185 | the creation fee is non-negative and grows with the wager |
| DepositGates.FeeIs | server/chain/bet-escrow-chain.ts:181-185 | the fee is the percentage rounded up to a whole token plus the flat part, and nothing without a wager |
| DepositGates.MemoMatchesExactlyWhen | server/chain/bet-escrow-chain.ts:485-490 | a built memo contains a tag exactly when raid and amount prefix agree, or the memo's raid ends in the prefix and the tag is read from its texts |
| DepositGates.TerminatedTagBinds | server/chain/bet-escrow-chain.ts:404-406 | with the colon that follows the amount the tag would be contained exactly in the memos of its own raid and amount |
| DepositGates.MemoAloneIsNotEnough | server/chain/bet-escrow-chain.ts:485-490 | the memo of a wager of 100 contains the tag of a wager of 10 |
| BetLedger.PlaceKeepsInv | server/game/bet-escrow.ts:232-285 | placing a bet keeps pools, bets and the per-wallet index in agreement and each pool total equal to its bets |
| BetLedger.CloseKeepsInv | server/game/bet-escrow.ts:367-408 | resolving a pool keeps that agreement and unlocks exactly the pool's bets |
| BetLedger.CloseDecides | server/game/bet-escrow.ts:367-408 | the bets of a closed pool are won or lost with its side, with their amounts kept, and no other bet changes |
| BetLedger.WithoutKeepsInv | server/game/bet-escrow.ts:438-465 | dropping any set of pools with their bets keeps it |
| BetLedger.PlaceLocks | server/game/bet-escrow.ts:299-308 | placing raises the wallet's locked amount by the bet and nobody else's |
| BetLedger.CloseUnlocks | server/game/bet-escrow.ts:299-308 | resolving lowers each wallet's locked amount by exactly its bet on the raid |
| BetLedger.CleanupUnlocksNothing | server/game/bet-escrow.ts:438-465 | cleanup changes no wallet's locked amount |
| BetLedger.PoolTotalsAreLockedBets | server/game/bet-escrow.ts:468-476 | the running totals of the active pools add up to all locked bets |
| BetLedger.BetEscrow.CreateRaidPool | server/game/bet-escrow.ts:200-220 | a known raid id is refused without a change; otherwise an empty active pool appears |
| BetLedger.BetEscrow.PlaceBet | server/game/bet-escrow.ts:232-285 | placed exactly when the pool is open and the wallet has no bet in it; refusals change nothing, otherwise all three indexes get the bet |
| BetLedger.BetEscrow.HasLockedBets | server/game/bet-escrow.ts:289-297 | true exactly when the wallet has a locked bet anywhere in the ledger |
| BetLedger.BetEscrow.GetLockedBetAmount | server/game/bet-escrow.ts:299-308 | the walk over the wallet's index yields the sum of all its locked bets in the ledger |
| BetLedger.BetEscrow.ShareSpoils | server/game/bet-escrow.ts:382-394 | the two loops pay the spoils bounded by SpoilsWithinPool and report their exact sum |
| BetLedger.BetEscrow.ResolveRaid | server/game/bet-escrow.ts:340-417 | errors change nothing; otherwise the bets are settled, the pool closed and the resolution is the exact one |
| BetLedger.BetEscrow.CleanupResolvedPools | server/game/bet-escrow.ts:438-465 | keeps exactly the open pools and those resolved no longer ago than the window, drops the others' bets from all indexes and counts them |
| Expeditions.CreateAgrees | server/game/expedition-tracker.ts:160-184 | creating keeps the expeditions, the reverse index, the asteroid lists and the miners' own expeditions describing one relation |
| Expeditions.JoinAgrees | server/game/expedition-tracker.ts:207-257 | joining keeps it |
| Expeditions.LeaveAgrees | server/game/expedition-tracker.ts:332-366 | leaving keeps it, the emptied expedition disappearing from every index |
| Expeditions.CompleteAgrees | server/game/expedition-tracker.ts:305-325 | completing an active expedition keeps it |
| Expeditions.CleanupAgrees | server/game/expedition-tracker.ts:414-429 | dropping old resolved expeditions keeps it |
| Expeditions.ExpeditionTracker.CreateExpedition | server/game/expedition-tracker.ts:103-193 | created exactly when the checks pass, the asteroids differ and the wallet is free; the expedition has the requested power, bet, asteroids and expiry, and all indexes are updated |
| Expeditions.ExpeditionTracker.JoinExpedition | server/game/expedition-tracker.ts:201-258 | joined exactly when active, free and allowed; attackers and bets extended, and the power added |
| Expeditions.ExpeditionTracker.LeaveExpedition | server/game/expedition-tracker.ts:332-366 | every raiding wallet can leave, and then leaves every index; an empty expedition is removed and unlisted |
| Expeditions.ExpeditionTracker.CompleteExpedition | server/game/expedition-tracker.ts:305-325 | the loop frees exactly the attackers and the raid leaves its target's list |
| Expeditions.ExpeditionTracker.RemoveIncomingRaid | server/game/asteroid-registry.ts:204-208 | the filter removes exactly the raid from the asteroid's list |
| Expeditions.ExpeditionTracker.AddIncomingRaid | server/game/asteroid-registry.ts:196-202 | the raid is listed once |
| Expeditions.ExpeditionTracker.GetExpeditionsTargeting | server/game/expedition-tracker.ts:278-282 | the filtered expeditions are exactly the asteroid's listed raids |
| Expeditions.ExpeditionTracker.Cleanup | server/game/expedition-tracker.ts:414-429 | the loop keeps exactly the active expeditions and those that expired within the last hour |
| RaidVaults.RaidVault.Add | server/game/raid-vault.ts:50-59 | non-positive amounts are ignored, others credited |
| RaidVaults.RaidVault.Debit | server/game/raid-vault.ts:65-77 | removes and reports the amount clamped to the balance |
| RaidVaults.RaidVault.GetTotal | server/game/raid-vault.ts:90-94 | the sum over all asteroids |
| RaidVaults.RaidVault.Recirculate | server/game/world.ts:849-868 | the loop credits the even shares whose exactness SharesAreExact proves |
| RaidVaults.SharesAreExact | server/game/world.ts:859-867 | the shares are non-negative, sum exactly to the amount, and are equal but for the last, which is larger by less than one token per share |
| RaidVaults.EachVaultGets | server/game/world.ts:859-867 | each receiving vault gets the floored even share, the last one what that leaves of the amount, and no further vault changes |
| RaidVaults.RecirculationIsExact | server/game/world.ts:849-868 | vault credits sum exactly to the recirculated amount and the defended vault gains nothing unless it is alone |
| RaidVaults.SweepConservesVaults | server/game/world.ts:754-771 | over all results of a sweep no debit is clamped, the target falls by exactly the stolen sum (an only asteroid gets the recirculation itself) and all vaults change by recirculated less stolen |
| RaidCombat.StealPercentBounds | server/game/raid-engine.ts:219-226 | a win steals more than 10 and at most 30 percent, also against no defense at all |
| RaidCombat.StealGrowsWithPower | server/game/raid-engine.ts:219-226 | more attack power never steals less, and from twice the effective defense on the maximum is stolen |
| RaidCombat.WeakerDefenseLosesMore | server/game/raid-engine.ts:203-226 | more power or less defense keeps a win a win and never steals less |
| RaidCombat.StealIsEven | server/game/raid-engine.ts:219-226 | between just winning and twice the effective defense the percentage grows linearly from 10 to 30 |
| RaidCombat.WinCredits | server/game/raid-engine.ts:237-246 | attackers are credited at most the stolen amount, short of less than one token per attacker |
| RaidCombat.WinPays | server/game/raid-engine.ts:237-246 | each attacker is credited an equal floored share of what was stolen, and nobody else anything |
| RaidCombat.LoseCredits | server/game/raid-engine.ts:268-283 | the stake bets of a lost raid are credited to defenders or counted as burned, to the token |
| RaidCombat.LosePays | server/game/raid-engine.ts:445-518 | each defender is credited their floored part of a tenth of the stake bets, nobody else anything, and the rest is counted as burned |
| RaidCombat.RaidsResolve | server/game/raid-engine.ts:321-333 | every due raid is resolved once, in order, only their statuses change, and the tracker indexes still agree |
| RaidCombat.RaidsAreDecided | server/game/raid-engine.ts:203-318 | each raid of a sweep is won exactly when its power exceeds the defense by more than a fifth, is completed or failed accordingly, and burns its stake bets exactly when lost |
| RaidCombat.SweepDrainsPot | server/game/raid-engine.ts:225-229 | the seeded pot falls by exactly what k raids stole and keeps at least 0.7 to the number of wins of its seed |
| RaidCombat.SweepPaysOut | server/game/raid-engine.ts:321-333 | over a sweep credits and burns never exceed what was stolen and forfeited, and miss less than a token per attacker |
| RaidCombat.RaidEngine.ResolveRaid | server/game/raid-engine.ts:196-318 | null exactly for unknown or inactive raids; otherwise the attackers win exactly when their power exceeds the defense by more than a fifth, the raid is marked so, and pot, credits, burn counter and tracker change as specified |
| RaidCombat.RaidEngine.ResolveAllRaids | server/game/raid-engine.ts:321-333 | the loop over the expeditions yields the results of the specified sweep |
| RaidCombat.RaidEngine.DistributeDefenderSpoils | server/game/raid-engine.ts:445-518 | spoils are the floored shares of a tenth of the bets and everything not paid is burned |
| GameWorlds.StartWithWagerKeepsInv | server/game/world.ts:1278-1384 | starting with a fresh verified deposit, accepted or refused, keeps tracker, ledger, wagers, plans and locks consistent |
| GameWorlds.AbandonKeepsInv | server/game/world.ts:1387-1398 | leaving keeps it, the leaver's own wager being forfeited |
| GameWorlds.SettledKeepsInv | server/game/world.ts:791-839 | settling a result keeps it and finds an open pool for every tracked wager |
| GameWorlds.SweptKeepsInv | server/game/world.ts:744-772 | a whole sweep at a target keeps it although all its raids end before any wager is settled |
| GameWorlds.OnePlanPerDeposit | server/game/world.ts:736-908 | in every run each verified deposit rides on a raid or has exactly one settlement plan, and nothing else has a plan |
| GameWorlds.PlansPayTheirDeposit | server/game/world.ts:813-838 | every plan ever dispatched has positive legs, burn last, summing exactly to its deposit, and an unbooked deposit is returned |
| Fates.FateDecidesPlan | server/game/world.ts:736-908 | in every run a deposit has a plan exactly when its raid was refused, abandoned, won or lost, and its legs pay what that entitles to: all back when refused or won, where won means power above the defense by more than a fifth, all burned when abandoned, each defender's own share, recirculation and burn when lost |
| Fates.ReturnedExactlyWhenWon | server/game/world.ts:813-838 | in every run a booked deposit is returned whole exactly when its raid was won, and burned whole exactly when it was abandoned or lost with both floored shares zero |
| GameWorlds.WagersAreLive | server/game/world.ts:792-808 | each tracked wager names an active raid of its own wallet and an open pool, so the error branches of settling and forfeiting are unreachable |
| GameWorlds.LockedIsRiding | server/game/bet-escrow.ts:299-308 | in every run the locked amount of a wallet is the sum of its tracked wagers |
| GameWorlds.IndexesAgree | server/game/expedition-tracker.ts:173-184 | in every run all tracker indexes agree |
| GameWorlds.VaultsStaySolvent | server/game/raid-vault.ts:65-77 | in every run, vault funding included, no vault is overdrawn |
| GameWorlds.VaultsAreConserved | server/game/world.ts:744-771 | in every run all vaults together hold exactly what was funded plus what the dispatched plans recirculated less what raids stole |
| EndToEnd.HandIsEnabled | server/game/world.ts:813-838 | whatever the escrow side of a deposit has done meanwhile, the world's plan is one the manager can take |
| EndToEnd.EveryDepositIsAccounted | server/chain/escrow-manager.ts:123-276 | in every run of world and escrow with crashes and reboots each verified deposit is in play, its settlement can go on, it is parked, or it is paid out exactly, but for deposits whose record no put had saved before a crash; its tokens moved are at most the deposit, its lost confirmations and what strayed |
| EndToEnd.CalmRunsPayExactlyOnce | server/chain/escrow-manager.ts:123-219 | without crashes and misreported calls every leg of a deposit moves tokens at most once, exactly once when it is paid, and the tokens moved are at most, then exactly, the deposit |
| Payments.CalmRunsPayByFate | server/chain/escrow-manager.ts:123-219 | in every joint run without crashes and misreported calls the legs run for a deposit are those its raid's outcome demands, and each has moved tokens exactly once when it is paid |
| GameWorlds.SweepConserves | server/game/world.ts:744-771 | seeding, draining, debiting and recirculating composed: the vault falls by exactly the stolen yield (an only asteroid gets the recirculation itself), keeps 0.7 to the wins, and no clamp bites |
| GameWorlds.RecirculationIsBacked | server/game/world.ts:830-838 | what a sweep credits to vaults equals what its plans move to the backing treasury |
| GameWorlds.SweptClears | server/game/world.ts:744-753 | after a sweep nothing is active at its target and nothing new is active anywhere |
| GameWorlds.GameWorld.BookWager | server/game/world.ts:1330-1369 | a verified deposit is booked in ledger, wagers and liability, or refunded on a ledger error |
| GameWorlds.GameWorld.StartExpedition | server/game/world.ts:1278-1384 | a refused raid changes nothing; an accepted one launches with the requested power, and with its stake bet only when there is no escrowed wager |
| GameWorlds.GameWorld.SubmitWagerRaid | server/net/gateway.ts:1179-1215 | a deposit whose raid is refused is refunded at once |
| GameWorlds.GameWorld.ForfeitEscrowedWager | server/game/world.ts:893-908 | the pool is closed, the entry dropped and the whole wager sent to the burn, or nothing happens |
| GameWorlds.ForfeitLoses | server/game/world.ts:893-908 | the bets of a forfeited wager's pool are lost and the pool is resolved |
| GameWorlds.GameWorld.LeaveExpedition | server/game/world.ts:1387-1398 | leaving drops the wallet's raid and forfeits its wager |
| GameWorlds.GameWorld.SettleEscrowedWager | server/game/world.ts:791-839 | one plan is dispatched: a won wager's legs return all of it to its wallet, a lost one's move exactly the resolution's payouts, recirculation and burn; without an open pool nothing changes |
| GameWorlds.GameWorld.ResolveTarget | server/game/world.ts:744-771 | the pot is seeded, all raids resolved, the vault debited and the wagers settled as specified |
| GameWorlds.GameWorld.ResolveDueRaids | server/game/world.ts:736-774 | afterwards no raid is active against a discovered asteroid or past its time, every raid against an asteroid that is neither discovered nor raided past time is still active, wagers recirculate to all other asteroids, world, vaults and plans are those after the sweeps in turn, and vaults less recirculation fall by exactly what these stole |
| Discovery.SharesMakeTheWhole | server/game/discovery-engine.ts:147-156 | the drill-power shares of a discovery are positive and add up to exactly 100 |
| Discovery.SharesFollowPower | server/game/discovery-engine.ts:151-155 | each contributor's percentage is their part of the total drill power, under their own wallet |
| Discovery.PickFinder | server/game/discovery-engine.ts:167-175 | the finder is the contributor whose stretch of the total power contains the roll |
| Discovery.ResolveOne | server/game/discovery-engine.ts:147-164 | null exactly without contributors; otherwise the finder is the one whose stretch of the total power the random number falls into, and every contributor's share is their part of the power |
| Discovery.Tick | server/game/discovery-engine.ts:118-144 | at each asteroid in turn exactly as many discoveries as the expected count, its rolled fraction and the cap give, each by its own pick and with full shares |
| Discovery.ExpectedIsProportional | server/game/discovery-engine.ts:129-130 | the expected count is proportional to drill power and time, and inversely to base time and reference power |
| Emission.IssuanceFitsHeadroom | server/game/emission-governor.ts:114-155 | a yield within the taper band is scaled to at most the headroom, at any liability and with either daily verdict |
| Emission.FitsExactlyWithinBand | server/game/emission-governor.ts:147-155 | for whole yields the bound holds at every liability exactly when the yield fits the band |
| Emission.LiveBudgetDecides | server/game/emission-governor.ts:97-155 | a known positive live budget decides alone, otherwise the static one: nothing when exhausted or the cap is reached, everything with room for the band or without a budget, in between the headroom as a part of the band |
| Emission.RollingCap | server/game/emission-governor.ts:157-161 | at any later moment the last 24 hours of issuance are below the cap plus the largest single issue |
| Emission.CeilingHoldsExactlyWhen | server/game/emission-governor.ts:157-161 | the last 24 hours stay within the cap at all times exactly when every issue fits what is left of the cap at its own time |
| Emission.BoundIsTight | server/game/emission-governor.ts:157-161 | any bound below the cap plus the largest issue is exceeded by some admitted log |
| Emission.CapIsOvershot | server/game/emission-governor.ts:157-161 | with whole amounts some admitted log reaches the cap plus the largest issue less one |
| Emission.RollingCapOverRestarts | server/game/emission-governor.ts:80-81 | over any number of processes the last 24 hours hold at most that many times the cap plus the largest single issue |
| Emission.EmissionGovernor.Prune | server/game/emission-governor.ts:163-169 | after pruning, the incremental sum equals the sum of the full log over the last 24 hours; the clamp at 0 never bites |
| Emission.EmissionGovernor.Record | server/game/emission-governor.ts:126-132 | a positive issue enters log and window and the sum is again that of the last 24 hours |
| Emission.EmissionGovernor.CurrentScale | server/game/emission-governor.ts:114-116 | the stricter of the taper and the daily cap on the full log's last 24 hours, with the verdict of LiveBudgetDecides on the budget in force |
| YieldOrchestration.CreditsWithinYield | server/game/yield-orchestrator.ts:315-355 | with a vault cut of at least 20 percent all miner credits, the finder's bonus included, stay within the scaled yield |
| YieldOrchestration.PoolIsPaidOut | server/game/yield-orchestrator.ts:333-346 | flooring the shares keeps less than one token a miner of the pool back |
| YieldOrchestration.EachMinerGets | server/game/yield-orchestrator.ts:333-355 | each miner is paid the floored percentage of the pool of their own share, the finder alone the floored bonus on it as well, a wallet without a share nothing; without shares the finder gets the pool |
| YieldOrchestration.DiscoveryFollowsBudget | server/game/yield-orchestrator.ts:281-304 | what is issued follows the budget in force, each wallet's pending yield rises by what its share earns, and with a live budget the total pending stays within the larger of what it was and that budget |
| YieldOrchestration.VaultGetsCut | server/game/yield-orchestrator.ts:315-322 | the asteroid's vault gets the floored percentage of the yield and no other vault changes |
| YieldOrchestration.VaultMustCoverBonus | server/game/yield-orchestrator.ts:315-342 | that holds for every whole yield exactly when the cut is at least the bonus |
| YieldOrchestration.YieldOrchestrator.BuildPayouts | server/game/yield-orchestrator.ts:333-355 | the share loop with its finder bonus and the fallback to the finder; each wallet is paid as in EachMinerGets |
| YieldOrchestration.YieldOrchestrator.ProcessDiscovery | server/game/yield-orchestrator.ts:268-375 | the issued total follows the budget in force, each wallet's pending yield rises by exactly what its share earns, vault credit and issuance log follow, a throttled discovery changing none of them; with a live budget and a yield within its band the total pending stays within the larger of what it was and that budget; the log stays admitted under the daily cap |
| Issuance.DiscoveryStaysBacked | server/game/yield-orchestrator.ts:275-361 | a discovery never lifts the liability above the larger of what it was and the budget in force |
| Issuance.OutstandingWithinBudget | server/game/stake-manager.ts:525-527 | over any run with other grants and reboots, pending credits, those in flight and those spent since boot are at most the largest budget in force, the most in flight or spent at a discovery and what was granted outside the governor |
| Issuance.BudgetHolds | server/game/emission-governor.ts:147-155 | if no discovery happens while a bridge is in flight or credits spent since boot could come back, the liability of a fresh game never exceeds the budget and what was granted outside the governor, failed bridges and reboots included |
| Issuance.WithinBudgetExactlyWhen | server/game/world.ts:1188-1209 | between grants the liability stays within a budget in every continuation, reboots included, exactly when pending credits, those in flight and those spent since boot together fit it |
| Issuance.DiscoveryIsSafeExactlyWhen | server/game/yield-orchestrator.ts:281-304 | a discovery leaves that so exactly when its credits fit what those three leave of the budget |
| Issuance.RefundCanExceedBudget | server/game/world.ts:1207-1209 | a concrete run: a refund after its headroom was reused leaves 64 outstanding on a budget of 40 |
| Issuance.RebootCanExceedBudget | server/game/stake-manager.ts:887-902 | a concrete run: a reboot hands back spent credits after their headroom was reused and leaves 64 outstanding on a budget of 40 |
| Credits.ApplyKeepsInv | server/net/gateway.ts:1297-1332 | every step of granting, bridging (one that lands and is refunded included), claiming, spending and rebooting keeps each wallet's conservation and log agreement |
| Credits.CreditsAreConserved | server/game/stake-manager.ts:754-865 | in every interleaving each credit granted or misreported is pending, in flight, delivered, claimed, spent or stranded, no balance is negative, and the log is short of the balance by the spending since boot |
| Credits.NoDoubleSpend | server/game/stake-manager.ts:808-835 | delivered, in-flight and claimed credits together never exceed those granted and those misreported, and without misreported bridges never those granted |
| Credits.DrawsWithinGrantsExactlyWhen | server/net/gateway.ts:1297-1332 | from any state, what a wallet draws stays within its grants in every continuation that misreports no more exactly when what was misreported is at most what reboots stranded |
| Credits.MisreportedBridgePaysTwice | server/net/gateway.ts:1305-1323 | a concrete run: a bridge of 10 that lands and throws is refunded and bridged again, 20 delivered for 10 granted |
| Credits.RebootReturnsSpending | server/game/stake-manager.ts:887-902 | a reboot raises each balance by exactly the in-game spending since the previous one |
| Credits.YieldLedger.AddPendingYield | server/game/stake-manager.ts:754-771 | balance and log rise by the amount, lifetime earnings only for positive amounts, no log entry for zero |
| Credits.YieldLedger.ClaimPendingYield | server/game/stake-manager.ts:778-795 | the whole balance is returned, cleared and logged when positive |
| Credits.YieldLedger.RedeemPendingYield | server/game/stake-manager.ts:808-835 | succeeds exactly when affordable and then debits, logs and counts the redemption; otherwise nothing changes |
| Credits.YieldLedger.SpendPendingYield | server/game/stake-manager.ts:844-865 | the same debit without a log entry |
| Credits.YieldLedger.GetTotalPendingYield | server/game/stake-manager.ts:873-877 | the sum over all wallets |
| Credits.YieldLedger.RestorePendingYield | server/game/stake-manager.ts:887-902 | the balances become the positive log sums, counted |
| Refineries.DistributionKeepsInv | server/game/refinery-manager.ts:265-335 | a distribution pays positive amounts, at most what is pending and short of less than one token per contributor, takes exactly that from the balance and clears pending and contributions; otherwise nothing changes |
| Refineries.ContributorGets | server/game/refinery-manager.ts:306-320 | each contributor is paid the floor of their score-weighted part of everything pending |
| Refineries.ScoreIsProportional | server/game/refinery-manager.ts:246-252 | a score is the part of the drill power times tier, loyalty and the part of an hour active |
| Refineries.EstimateIsPayout | server/game/refinery-manager.ts:400-425 | the pending share shown to a wallet is what an immediate distribution would pay it, in all null cases too |
| Refineries.RefineryConserves | server/game/refinery-manager.ts:163-192 | over any run added equals balance plus distributed plus debited, and pending stays between 0 and the balance |
| Refineries.RefineryManager.AddToRefinery | server/game/refinery-manager.ts:163-172 | balance and pending rise together, the row being created when missing |
| Refineries.RefineryManager.Debit | server/game/refinery-manager.ts:181-192 | takes the amount clamped to the balance and lowers pending by it, clamped at 0 |
| Refineries.RefineryManager.UpdateMinerContribution | server/game/refinery-manager.ts:200-232 | one contribution per wallet, accumulated or added |
| Refineries.ContributionAdds | server/game/refinery-manager.ts:216-231 | power times seconds and the seconds are added to the wallet's contribution, tier and loyalty are the latest, no other contribution changes |
| Refineries.RefineryManager.DistributeRefinery | server/game/refinery-manager.ts:265-335 | pays exactly when enough is pending and power and scores are not zero, and then as the specified distribution |
| Refineries.RefineryManager.GetMinerPendingShare | server/game/refinery-manager.ts:400-425 | null exactly without a refinery; otherwise the immediate payout of that wallet |
| Stakes.StakeKeepsInv | server/game/stake-manager.ts:286-308 | staking keeps wallet totals equal to record sums and asteroid totals equal to sums over wallets |
| Stakes.UnstakeKeepsInv | server/game/stake-manager.ts:360-383 | unstaking keeps both, and the asteroid's clamp at 0 never bites |
| Stakes.UnstakeTakes | server/game/stake-manager.ts:360-383 | an unstake takes what was asked for or all the record holds, from record and total alike, and no other record changes |
| Stakes.LargestFirstIs | server/game/syndicate-manager.ts:155-157 | the sorted copy has the founder's records, largest first, with the same sum |
| Stakes.StakeManager.Stake | server/game/stake-manager.ts:270-316 | refused exactly for non-positive amounts and unknown asteroids; otherwise record and totals rise |
| Stakes.StakeManager.Unstake | server/game/stake-manager.ts:360-383 | takes the amount clamped to the record, drops an emptied record, lowers both totals by it |
| Stakes.StakeManager.CreateSyndicate | server/game/syndicate-manager.ts:135-166 | when the checks pass the founder's total falls by exactly 1000, largest records first, and nobody else's stake changes |
| RedeemMatching.GreedyIsExact | server/chain/redeemer.ts:575-595 | the greedy matcher accepts exactly the submissions from which deleting safe-program instructions leaves the built list in order |
| RedeemMatching.MatchInstructions | server/chain/redeemer.ts:576-595 | the loop decides that property |
| RedeemMatching.SameUnsafe | server/chain/redeemer.ts:549-563 | an accepted submission has exactly the built instructions of all other programs, in order |
| RedeemMatching.OnlyHarmlessDiffer | server/chain/redeemer.ts:564-569 | an accepted submission and the built list differ in instructions of the compute-budget and the lighthouse program only |
| RedeemMatching.NothingLeftOut | server/chain/redeemer.ts:553-555 | every built instruction survives in an accepted submission |
| HoldEstimation.SimulationFollowsReplay | server/chain/prewarm.ts:221-242 | the reverse simulation is short of the forward replay by exactly what the wallet sent itself since |
| HoldEstimation.EstimateIsSound | server/chain/prewarm.ts:218-264 | an estimate is the time of a transaction since which the wallet has held the requirement; the oldest transaction is used only when nothing dips |
| HoldEstimation.EstimatedExactlyWhen | server/chain/prewarm.ts:218-264 | there is an estimate exactly when the wallet holds the requirement now and the dip, or else the oldest transaction, carries a time |
| HoldEstimation.EstimateIsExactlyWhen | server/chain/prewarm.ts:235-252 | the reported dip is the wallet's true one exactly when none is reported or what the wallet sent itself since is less than what the simulation is short by |
| HoldEstimation.EstimateIsExact | server/chain/prewarm.ts:244-252 | without self-transfers it always is |
| HoldEstimation.FreshEstimateIsSound | server/chain/prewarm.ts:299-303 | the same for transactions fetched in any order, after the defensive sort |
| HoldEstimation.SelfTransferUndercounts | server/chain/prewarm.ts:235-239 | a concrete history in which a self-transfer dates the hold too late |
| HoldEstimation.OnChainHoldEstimator.Walk | server/chain/prewarm.ts:221-264 | the two nested loops and the fallback compute the specified estimate |
| HoldEstimation.OnChainHoldEstimator.EstimateHoldStart | server/chain/prewarm.ts:165-268 | invalid balances and failed fetches are errors that cache nothing, a live cache entry is returned, every other outcome is computed and cached |
| Sorting.SortSorts | server/chain/prewarm.ts:301-303 | the sort permutes its input into descending order |
| Sorting.SortIsStable | server/chain/prewarm.ts:301-303 | elements with equal keys keep their order |
| RateLimits.AtMostTwiceTheLimit | server/verification/anti-cheat.ts:310-357 | over any trace with failures, successes and cleanups an interval of one window length sees at most twice the limit |
| RateLimits.BoundedExactlyForShortWindows | server/verification/anti-cheat.ts:621-625 | that holds for every trace exactly when the window is at most a day and a millisecond |
| RateLimits.LimitHoldsExactlyWhen | server/verification/anti-cheat.ts:304-357 | a run keeps the limit in every interval of one window length exactly when each admission was made while fewer than the limit of earlier ones were younger than the window |
| RateLimits.LimitBoundsExactlyWhen | server/verification/anti-cheat.ts:336-357 | every run does exactly when the window is one millisecond or the limit is zero |
| RateLimits.TwiceIsReached | server/verification/anti-cheat.ts:336-357 | for every limit above zero and every window above one millisecond there is a trace that reaches twice the limit in one interval of the window's length |
| RateLimits.RetryAfterIsExact | server/verification/anti-cheat.ts:336-355 | a refused wallet is let in again exactly from the announced time on |
| RateLimits.BackoffHolds | server/verification/anti-cheat.ts:318-334 | a wallet in backoff stays in backoff exactly until the announced time |
| RateLimits.FailureBlocks | server/verification/anti-cheat.ts:381-413 | a failed attempt blocks the wallet exactly until its backoff is over, a successful one lifts any backoff |
| RateLimits.BackoffGrows | server/verification/anti-cheat.ts:388-393 | the backoff never shrinks with further failures and stays within its cap |
| RateLimits.BackoffMultiplies | server/verification/anti-cheat.ts:388-393 | the first failure waits the initial time, each further one longer by the multiplier, up to the cap |
| RateLimits.AntiCheat.CheckAction | server/verification/anti-cheat.ts:310-373 | backoff first, then the window roll, then the limit; an allowed action is counted |
| RateLimits.AntiCheat.RecordFailedAction | server/verification/anti-cheat.ts:381-405 | failure count and backoff deadline advance, the entry being created when missing |
| RateLimits.AntiCheat.RecordSuccessfulAction | server/verification/anti-cheat.ts:408-413 | clears failures and backoff of a known wallet |
| RateLimits.AntiCheat.CleanupExpiredEntries | server/verification/anti-cheat.ts:621-625 | drops exactly the entries whose window began more than a day ago |
| RateLimits.SlidingCap | server/net/gateway.ts:1277-1296 | a sliding window never lets more than its cap through in any interval of its length |
| RateLimits.GatewayCaps | server/net/gateway.ts:765-772 | at most 5 chat lines in any 10 seconds and at most the configured bridges in any hour |
| RateLimits.SlidingLimiter.TryAct | server/net/gateway.ts:1277-1296 | the filtered stored stamps decide as the wallet's whole history would |

## Left out

- Floating-point rounding: all amounts are exact reals.
- Persistence failures: store writes are atomic, in order and succeed (`persist` and the yield ledger only log errors).
- Records that fail: a parked wager is owed nothing by the escrow in `EscrowTreasury`, as in the code's liability; paying it is manual work.
- Interleaving inside the manager classes: a method of `EscrowManager`, `GameWorld` or `YieldLedger` runs to its end; the step systems are the interleaved view.
- A settle for a wager whose row is being reconciled at the same time: the server reconciles before it serves traffic.
- A commingled escrow wallet in `EscrowTreasury`: the redeemer's own float on the same wallet is not modelled there (the deposit gate covers both modes).
- A transaction that lands after its call was given up or after its process died: a call lands before it answers, or never.
- Deposits that are never submitted or fail verification, and surplus already in escrow beyond an opening balance.
- Escrow.burnWager's own error paths and the fee and rent statistics.
- Defender-side bets in the ledger: never unlocked and not used by the world.
- Stake bets of raids without an escrowed wager beyond their sum: the stake cap, `burnBet`'s unstaking and `returnBetWithWinnings`.
- `startReturn` and `distributeRaidRewards`: not called by the world.
- `runDiscoverySweep`: the glue between `Tick` and `ProcessDiscovery`.
- The legacy 70/30 refinery mode of the orchestrator, the chain payout hook, and the yield multipliers, which enter as the gross yield.
- Restarts of the rate limiters: their windows live in memory, so their bounds are per process.
- Whether a raid payout in `Issuance` is backed: grants outside the governor are only summed, what a vault holds against them is not tied to the budget.
- Quarry mode of the stake manager; home stations, loyalty and tier tables.
- Syndicate names, tags, membership and treasuries; cooldowns, meteors, officer caps, defense rallies, buffs and immunity timers.
- The wallet and IP trackers, sybil flags and logs of the anti-cheat.
- Chat text, handles, HTTP and WebSocket wiring, admin pages, Postgres and Redis adapters, Solana transaction building and signatures.
- Credits.RebootReturnsSpending: the fallback to the balance mirror when no audit log is wired is not modelled.
- Discovery.ResolveOne: that the random numbers are uniform is not modelled, only which roll picks whom.
