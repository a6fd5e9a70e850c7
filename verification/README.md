# Hyperflip, verified

Hyperflip wraps HyperCore outcome markets as pairs of ERC-20 tokens (`OutcomeVault`) and sells
escrowed parlay tickets on them (`ParlayVault`). A keeper tells the vaults what Core did with
their operations and how outcomes settled. A writer prices parlays and bounds what the house can
lose. This project models those four parts in Dafny and proves what they promise each other and
their users.

`dafny verify dfyconfig.toml` checks everything.

## How it is laid out

Each part is a state machine over values: a world, one function a transaction or environment
step, invariants every step keeps, and theorems over whole runs. What the source does in place
is a class, each of whose methods is proved to have exactly the effect of its function. The
`Effects` and `Caps` modules tell the same effects in balances and numbers alone, without the
functions they are made of.

| part | values and steps | proofs | classes and loops |
|---|---|---|---|
| vault and Core | CoreConstants, VaultState | VaultInvariants, VaultTheorems, VaultEffects, VaultClears, ClearSafety | OutcomeVault, CoreAccount |
| parlays | LegOutcomes, ParlayState | ParlayInvariants, ParlayTheorems, ParlayEffects | ParlayVault |
| readings of parlays | SubgraphIndex, PositionRow | SubgraphIndex, PositionRow | SubgraphIndex.Store |
| writer | Pricing, ExposureState, ScanState | Pricing, ExposureTheorems, ExposureCaps, ScanState | BestAsk, ExposureBook, QuoteDesk, Poker |
| vault and keeper | JointRuns | JointRuns | |
| keeper | BalanceCheck, KeeperState, SettlementState, FractionCache | KeeperTheorems, KeeperEffects, SettlementTheorems, FractionCache | BalanceLoop, SettlementLoop |

Prelude, Sums and NonLinear hold shared vocabulary, sums over maps, and facts about floored
quotients.

The parts lean on each other. The vault's theorems assume that verdicts say what Core did;
`KeeperTheorems.VerdictsAreTruthful` proves it of the keeper, and `JointRuns` runs the two as one
machine, in which every run is an honest run of the vault. The poker, the web row and the subgraph
are each proved against the one definition of where a ticket lands, `LegOutcomes.Landing`. The
quote endpoint and the poker's ticks are proved to be steps of the life of quotes in
`ExposureState`. The settlement journey uses the vault's own `settle`
(`SettlementState.ProjectionSettles`).

## What is assumed

- Core runs a queued action within a known window or never, and a yes balance moves only by its
  vault's operations. Core always credits a deposit (DEPLOY.md:442-451 tells of a case where it did
  not). The fee of a spotSend is paid in HYPE. Core balances stay within 64 bits: a credit that
  would overflow, or a merge of more collateral than a balance can hold, is rejected. An outcome
  resolves once, at a value between none and all.
- The vault's quote token has at most 8 decimals, and 10^(8 - decimals) Core wei make one unit.
- The keeper's clock runs less than 2 s behind chain time and a bounded time ahead; a balance read
  takes a bounded time; both bounds and a sample's 62 s fit in the verifier's delay, and the
  balance timeout covers Core's window (`KeeperState.Sound`). The verifier is not replaced. Only the
  keeper signs for the keeper.
- Replacing a file either replaces it or leaves the old contents.
- The exposure book's clock does not go back, quote ids are fresh, a minted quote is seen within
  its grace period, and configured caps do not change during a run.
- `MIN_PREMIUM_BPS` is not zero, and `IN_PLAY_CAP_BPS` is at most 10000.
- Blocks the poker reads are final.

Addresses that differ only in letter case are one address, except in `FractionCache`, where case is
the point. Op keys and digests are taken as the ids they are made of.

## Where the code and its descriptions differ

- A void ticket is resolved by the contract as soon as one leg is fractional and none lost
  (src/ParlayVault.sol:216); the writer's void test waits for every leg (writer/src/settlement.ts:42-52).
  Each direction that holds is proved, and `VoidTestIsOneSided` gives a ticket for the one that does not.
- The poker's open set can hold tickets the scan has not reached: a tick that failed half way has
  read their legs already (writer/src/poker.ts:113-126). Past what the seed read it is exactly the
  chain's open tickets at the scan position and those, so it is the chain's if and only if there
  are none (`OpenSetIsTheChains`); `HalfFailedTickReadsAhead` gives a run that has one.
- `clearOutbound` before settlement keeps users covered, in every later honest run and whatever
  quote users hold, if and only if the EVM balance covers everything owed
  (`ClearSafety.ClearIsCarefulOrBreaks`). Otherwise the vault can promise the same Core quote twice.
  Counting deposits under way to Core, what users can lose by any clears is at most the fees Core
  kept of merges, so nothing where merges are free (`VaultClears.ClearsCostNoMoreThanFees`,
  `FreeMergesNeverUncover`); `CarelessClearUncovers` is a run of a new vault that does lose them.
- Prices stay below one for a joint probability below one exactly when edge times probability is
  below 10^22 (`PricesBelowOne`), which edges above 10000 bps can exceed. Among
  prices below one, more probability still means a higher price at any edge.

## Model

| member | source | states |
|---|---|---|
| CoreConstants.PowersOfTen | src/CoreConstants.sol:74-89 | units per share and wei per unit multiply to the quote wei of a share |
| CoreConstants.QuoteWeiExact | src/CoreConstants.sol:74-89 | EVM quote converts exactly, without dust, and reverts only for zero or beyond 64 bits |
| CoreConstants.QuoteWeiFloors | src/CoreConstants.sol:79-81 | Core wei convert to the whole EVM units they hold |
| CoreConstants.QuoteWeiRoundTrip | src/CoreConstants.sol:74-81 | converting to Core wei and back gives the amount |
| CoreConstants.SplitDebitsWhatDepositCredits | src/OutcomeVault.sol:152-167 | the collateral a split takes on Core is the wei its deposit brings |
| CoreConstants.OutcomeWeiExact | src/CoreConstants.sol:74-89 | an amount is split into wei of exactly its worth, refused iff Core has none |
| CoreAccount.TokenBook.MintPair | src/OutcomeVault.sol:169-176 | both sides of a pair are issued to one holder |
| CoreAccount.TokenBook.Burn | src/OutcomeVault.sol:189-199 | a burn beyond the balance reverts, otherwise balance and supply fall together |
| CoreAccount.CoreSim.SendRawAction | src/OutcomeVault.sol:368-370 | an action goes to the end of the queue and nothing else moves |
| CoreAccount.CoreSim.Apply | test/CoreSim.sol:155-198 | one action: a split locks collateral it finds, a merge releases it less the fee, a send moves whole units, anything else is rejected |
| CoreAccount.CoreSim.ProcessAt | test/CoreSim.sol:91-98 | taking one action off the queue is one step of the machine |
| CoreAccount.CoreSim.ProcessActions | test/CoreSim.sol:91-98 | the loop over the queue is a run of such steps, deferred sends held back in their order, those held back before left alone |
| CoreAccount.CoreSim.ProcessSpotSends | test/CoreSim.sol:63-67 | landing the next held-back sends is a run of such steps, whatever else is queued |
| CoreAccount.CoreSim.DropPendingActions | test/CoreSim.sol:106-112 | everything queued but the held-back sends is discarded, and every operation among it has failed |
| CoreAccount.CoreSim.ProcessTransfersOnly | test/CoreSim.sol:83-89 | all of the quote in transit is credited, or none if it would overflow |
| CoreAccount.CoreSim.CreditStray | test/CoreSim.sol:74-76 | a stray credit only raises the Core balance |
| CoreAccount.CoreSim.CreditSettlement | test/CoreSim.sol:115-119 | outstanding collateral turns back into quote less the fee |
| OutcomeVault.OutcomeVault.Deposit | src/OutcomeVault.sol:152-167 | the whole effect of a deposit or the reason it reverts |
| OutcomeVault.OutcomeVault.ClaimDeposit | src/OutcomeVault.sol:169-176 | only an executed split issues the pair, once |
| OutcomeVault.OutcomeVault.CancelDeposit | src/OutcomeVault.sol:180-187 | only a failed split is refunded, out of Core, as a payout |
| OutcomeVault.OutcomeVault.RequestRedeem | src/OutcomeVault.sol:189-199 | a redemption burns the pair and queues the merge |
| OutcomeVault.OutcomeVault.ClaimRedeem | src/OutcomeVault.sol:201-207 | only an executed merge is paid out |
| OutcomeVault.OutcomeVault.CancelRedeem | src/OutcomeVault.sol:210-217 | only a failed merge gives the pair back |
| OutcomeVault.OutcomeVault.Withdraw | src/OutcomeVault.sol:219-226 | a withdrawal pays all that is owed to the caller and counts it as paid |
| OutcomeVault.OutcomeVault.Settle | src/OutcomeVault.sol:232-246 | who can settle, when, and at which fraction |
| OutcomeVault.OutcomeVault.PullSettledFunds | src/OutcomeVault.sol:252-262 | the sweep sends the whole units Core holds, and arms the gate only if there are any |
| OutcomeVault.OutcomeVault.RedeemSettled | src/OutcomeVault.sol:269-285 | the gate, the floor, the pro rata payout, the burn |
| OutcomeVault.OutcomeVault.ClearOutbound | src/OutcomeVault.sol:144-150 | the owner writes the trackers down, nobody else |
| OutcomeVault.OutcomeVault.PayOut | src/OutcomeVault.sol:329-341 | a payout credits what Core holds beyond what is still in the air, at least 99%, and sends it |
| OutcomeVault.OutcomeVault.SpotSendOut | src/OutcomeVault.sol:348-354 | a send counts into the expectation, the counter and the dwell target |
| VaultInvariants.FreshInv | src/OutcomeVault.sol:93-121 | a new vault satisfies the invariant |
| VaultInvariants.PayOutEffect | src/OutcomeVault.sol:329-341 | a payout that commits credits at least 99% and expects as much as it credits |
| VaultInvariants.PayOutKeeps | src/OutcomeVault.sol:329-341 | payouts keep owed quote covered |
| VaultInvariants.DepositKeeps | src/OutcomeVault.sol:152-167 | deposits keep books, queue, coverage and backing |
| VaultInvariants.CancelDepositKeeps | src/OutcomeVault.sol:180-187 | so do cancelled splits |
| VaultInvariants.ClaimRedeemKeeps | src/OutcomeVault.sol:201-207 | so do paid merges |
| VaultInvariants.ProcessKeeps | test/CoreSim.sol:155-198 | so does Core, taking any action, applied or dropped |
| VaultInvariants.StepKeeps | src/OutcomeVault.sol:144-285 | every truthful step keeps the invariant, clears being careful |
| VaultInvariants.RunKeeps | src/OutcomeVault.sol:144-285 | so does every honest run |
| VaultInvariants.SerialStep | src/OutcomeVault.sol:303-305 | one operation at a time needs truthful verdicts and nothing of the owner |
| VaultInvariants.StepUnderWay | src/OutcomeVault.sol:152-217 | every operation ever begun is queued or decided |
| VaultInvariants.RedemptionUnreserved | src/OutcomeVault.sol:269-292 | a settled redemption pays only out of quote nobody else is owed |
| VaultTheorems.OwedIsCovered | src/OutcomeVault.sol:152-226 | in every honest run EVM quote plus whole Core units cover everything owed, and so each user |
| VaultTheorems.DepositNeedsLandedSends | src/OutcomeVault.sol:311-315 | a deposit is accepted only when the EVM balance alone covers everything owed |
| VaultTheorems.SharesAreBacked | src/OutcomeVault.sol:152-217 | until the vault settles supplies are equal; until Core credits, locked collateral is supply, plus an unclaimed split, plus a pending merge |
| VaultTheorems.SuppliesAreEqual | src/OutcomeVault.sol:169-217 | in any run at all, honest or not, there is a NO for each YES until the vault settles |
| VaultTheorems.MergeNeverLacksShares | test/CoreSim.sol:162-178 | a queued merge always finds its collateral, a queued split is its deposit's |
| VaultTheorems.QuoteIsConserved | test/CoreSim.sol:155-198 | no step creates quote, and only merge and settlement fees lose any |
| VaultTheorems.TransactionsConserve | src/OutcomeVault.sol:152-285 | transactions only move quote between purses, vault and transit |
| VaultTheorems.OpenGateHoldsTheSweep | src/OutcomeVault.sol:269-292 | the arrival test passes iff the vault holds what it owes plus sweeps less redemptions, so an open gate pays from at least that |
| VaultTheorems.OnlyAPullClosesTheGate | src/OutcomeVault.sol:252-285 | an open gate closes only by a sweep of more; withdrawals and redemptions leave its measure |
| VaultTheorems.PullSendsAllWholeUnits | src/OutcomeVault.sol:252-262 | a sweep asks for all whole units and no more than there is, counts and expects them, arms the gate, and never reverts on dust |
| VaultTheorems.RedeemKeepsCoverage | src/OutcomeVault.sol:269-297 | a settled redemption never lowers available over obligation |
| VaultTheorems.SettledRefuses | src/OutcomeVault.sol:152-246 | a settled vault takes no operation, has none to finish, and does not settle again |
| VaultTheorems.WaitingNeverHurts | src/OutcomeVault.sol:269-285 | over any later run coverage does not fall and a redemption pays no less |
| VaultTheorems.PassedFloorsStayPassed | src/OutcomeVault.sol:269-285 | full coverage stays full and the 99% floor stays passed |
| VaultTheorems.SettledIsForever | src/OutcomeVault.sol:232-246 | settlement and its fraction are written once |
| VaultClears.StepGap | src/OutcomeVault.sol:144-226 | no step before settlement moves claims and quote apart by more than the merge fee it pays |
| VaultClears.ClearsCostNoMoreThanFees | src/OutcomeVault.sol:144-150 | whatever the owner clears, claims exceed the vault's quote, transit included, by no more than the fees Core kept |
| VaultClears.FreeMergesNeverUncover | src/OutcomeVault.sol:144-150 | where merges are free no clear leaves a claim without its quote |
| VaultClears.CarelessClearUncovers | src/OutcomeVault.sol:144-150 | a run of a new vault at 1 bps in which a careless clear loses users the fee |
| ClearSafety.SplitOnCredit | src/OutcomeVault.sol:152-176 | a deposit not credited yet is split on Core quote others are owed |
| ClearSafety.LentUncovers | src/OutcomeVault.sol:329-341 | once more is owed than has landed and the trackers do not know, an honest run leaves users uncovered, at any fee and whatever is pending |
| ClearSafety.ClearIsCarefulOrBreaks | src/OutcomeVault.sol:144-150 | after any honest run a clear before settlement is safe over all later honest runs iff the EVM balance covers everything owed |
| VaultEffects.SettledRedemptionPays | src/OutcomeVault.sol:269-297 | a settled redemption commits iff settled, swept, landed, 99% there, held and worth something; it pays YES at the fraction and NO at the rest of one, or their share of a short pool, to the sender, and touches nobody else |
| VaultEffects.WithdrawalPays | src/OutcomeVault.sol:219-226 | a withdrawal commits iff something is owed and there; it pays the sender all of it and touches nobody else |
| VaultEffects.PairsGoToTheirUser | src/OutcomeVault.sol:169-217 | an executed split and a failed merge give the pair to the pending user and nobody else |
| VaultEffects.FailedSplitsAreRefunded | src/OutcomeVault.sol:180-187 | a deposit is cancelled iff its split failed, Core holds it on top of what it held before, and 99% can be paid; its user is credited what can be paid |
| VaultEffects.ExecutedMergesArePaid | src/OutcomeVault.sol:201-207 | a merge is paid iff it executed and 99% can be paid; its user is credited what can be paid |
| VaultEffects.DepositsBegin | src/OutcomeVault.sol:152-167 | when exactly a deposit is accepted, and that it takes the amount from the sender only |
| VaultEffects.RedemptionsBegin | src/OutcomeVault.sol:189-199 | when exactly a redemption is accepted, and that it burns the pair of the sender only |
| VaultEffects.SettlesExactlyWhen | src/OutcomeVault.sol:232-246 | who settles when at which fraction, in numbers |
| VaultEffects.CoreAppliesExactly | test/CoreSim.sol:155-198 | when a queued split, merge or send runs, what it moves, and that it has no effect otherwise |
| VaultEffects.RefundNeedsTheCredit | src/OutcomeVault.sol:180-187 | over any run a deposit is refunded only while Core holds it beyond what it held when it was made, and only to its depositor |
| LegOutcomes.ScanLegs | src/ParlayVault.sol:194-228 | the loop lands Dead iff a settled leg lost, else Void iff one is fractional, else Won iff all are settled |
| LegOutcomes.LandingIgnoresOrder | src/ParlayVault.sol:194-228 | the order of the legs does not matter |
| LegOutcomes.WonIffAllHit | src/ParlayVault.sol:194-228 | a ticket wins iff every leg settled at the side taken |
| LegOutcomes.LandingByFractions | src/ParlayVault.sol:189-228 | where a ticket lands, from its legs' fractions alone |
| LegOutcomes.LandingIsStable | src/ParlayVault.sol:194-228 | under later settlements Dead and Won stay, and Void can only become Dead |
| LegOutcomes.ParlayIsVoid | writer/src/settlement.ts:42-52 | the loop answers void iff the contract would void and every leg is settled |
| LegOutcomes.DeadTestIsExact | writer/src/settlement.ts:33-35 | the dead test is the contract's, and stays true |
| LegOutcomes.VoidTestIsOneSided | writer/src/settlement.ts:42-52 | a ticket the contract voids that the void test does not see |
| ParlayVault.ParlayVault.Mint | src/ParlayVault.sol:164-187 | the guards in their order, the escrow from both sides, the ticket |
| ParlayVault.ParlayVault.ResolveParlay | src/ParlayVault.sol:194-228 | where a ticket lands, who is paid, that void tickets burn |
| ParlayVault.ParlayVault.Claim | src/ParlayVault.sol:233-240 | resolving first if needed, then paying the owner and burning |
| ParlayVault.ParlayVault.RequireLegs | src/ParlayVault.sol:174-179 | the loop over the legs finds the first that may not be used |
| ParlayInvariants.ResolveKeeps | src/ParlayVault.sol:194-228 | resolution goes through iff the ticket is open and lands somewhere, and keeps the escrow |
| ParlayInvariants.ClaimKeeps | src/ParlayVault.sol:233-240 | a claim goes through iff the caller holds a ticket won or landing Won |
| ParlayInvariants.MintKeeps | src/ParlayVault.sol:164-187 | a mint brings the pot it escrows |
| ParlayInvariants.StepFollows | src/ParlayVault.sol:164-240 | any transaction is at most two of five elementary effects on one ticket |
| ParlayInvariants.RunKeeps | src/ParlayVault.sol:164-240 | every run keeps every ticket in order and the escrow funded |
| ParlayTheorems.EscrowIsCovered | src/ParlayVault.sol:164-240 | the vault's USDC covers the pots of all open and unclaimed won tickets |
| ParlayTheorems.TicketPaysExactlyOnce | src/ParlayVault.sol:194-240 | a ticket pays nothing before it is dead, void or claimed, and then exactly its pot, to the right people |
| ParlayTheorems.ClaimSucceedsExactlyForWinners | src/ParlayVault.sol:233-240 | a claim succeeds iff its sender holds an unburned ticket that won or would now; funds never lack |
| ParlayTheorems.StatusesAreFinal | src/ParlayVault.sol:194-240 | statuses never leave Won, Dead or Void, and terms never change |
| ParlayTheorems.DecisionsHold | src/ParlayVault.sol:194-228 | a decision agrees with the settlements ever after, but for a void that would later be dead |
| ParlayTheorems.UsdcIsConserved | src/ParlayVault.sol:164-240 | no transaction creates or destroys USDC |
| ParlayTheorems.PokeAlwaysLands | writer/src/poker.ts:129-143 | a ticket the poker picks resolves to dead or void, however old its reading |
| ParlayTheorems.PokesByFractions | writer/src/settlement.ts:33-52 | which tickets are poked, from their legs' fractions alone |
| ParlayEffects.MintsThatGoThrough | src/ParlayVault.sol:164-187 | a mint commits iff it is signed, in time, its taker's, unused, on one to ten allowed open legs, priced within bounds, and both parties can pay |
| ParlayEffects.MintTakesEachShare | src/ParlayVault.sol:183-184 | the taker pays exactly the premium and the writer the rest, from balance and finite allowance; the vault gets the pot and nobody else is touched |
| ParlayEffects.ResolutionPays | src/ParlayVault.sol:194-228 | a dead pot goes to the ticket's writer, a void premium to its holder and the rest to its writer, and nothing to anybody else |
| ParlayEffects.ClaimPays | src/ParlayVault.sol:233-240 | the whole pot goes to the sender, who holds the ticket, and nothing to anybody else |
| ParlayEffects.LogIsTheLedger | src/ParlayVault.sol:164-240 | over any run every account's USDC changes by the payments logged to it, less its shares of pots, plus what it moved outside |
| ParlayEffects.HoldersKeepTheirTickets | src/ParlayVault.sol:194-240 | a ticket leaves its holder only by the holder's transfer or claim, or resolved void |
| SubgraphIndex.Store.OnMint | subgraph/src/mapping.ts:21-48 | the handler's effect on the store |
| SubgraphIndex.Store.OnTransfer | subgraph/src/mapping.ts:50-66 | the handler's effect on the store, a burn remembering its holder |
| SubgraphIndex.Store.OnResolve | subgraph/src/mapping.ts:68-75 | the handler's effect on the store |
| SubgraphIndex.Store.AssociateWallet | subgraph/src/mapping.ts:9-19 | an association is added once, never for the zero address |
| SubgraphIndex.EffectInStep | subgraph/src/mapping.ts:9-75 | replaying the events of one elementary effect keeps index and contract in step |
| SubgraphIndex.ReplayRebuildsTheContract | subgraph/src/mapping.ts:9-75 | replaying any run's log never fails and gives the contract's tickets, owners, statuses and burns, all acceptable to the web |
| SubgraphIndex.HoldersAreReceivers | subgraph/src/mapping.ts:9-19 | the wallets associated with a ticket are those some transfer gave it to |
| PositionRow.VerdictsMatchLegs | web/lib/positions.ts:62-69 | leg verdicts say lost, fractional or hit exactly when the contract would |
| PositionRow.RowTellsTheTruth | web/lib/positions.ts:118-183 | a row offers a claim iff it would succeed, a resolution iff it lands void, and says lost iff dead or landing dead |
| PositionRow.IndexedRowTellsTheTruth | web/lib/positions-index.ts:101-183 | the row of a ticket indexed at a snapshot, with outcomes from a later head, tells the truth of those tickets under those outcomes, and of the head if the ticket was left alone |
| PositionRow.RowsSayTheTruth | web/lib/positions.ts:118-183 | what every row says, label by label, to every wallet, read off the chain or off the index |
| Pricing.IndependentJointProbWad | writer/src/pricing.ts:17-19 | the loop is the floored left fold |
| Pricing.JointProbIsTight | writer/src/pricing.ts:17-19 | the fold is at most every leg and below the exact product by less than one wei a leg |
| Pricing.ReorderingMovesLessThanLegs | writer/src/pricing.ts:17-19 | reordering legs moves the fold by less than one wei a leg |
| Pricing.PricesBelowOne | writer/src/pricing.ts:37-38 | a price stays below one iff edge times probability does; always up to 10000 bps |
| Pricing.PriceGrowsWithProbability | writer/src/pricing.ts:37 | prices grow with probability, at any edge at which the larger probability prices below one |
| Pricing.PriceGrowsWithEdge | writer/src/pricing.ts:37 | prices grow with the edge |
| Pricing.QuotesPassMintAndAreNotGenerous | writer/src/pricing.ts:25-47 | every quote passes mint's premium, floor and uint96 guards and pays no more than fair odds |
| Pricing.QuotesPayTheMostThePriceAllows | writer/src/pricing.ts:25-47 | a quote is given iff stake, probability, price and payout are in range, and its payout is the largest the price with its edge and the minimum premium allow |
| Pricing.PayoutFallsWithProbabilityAndEdge | writer/src/pricing.ts:25-47 | payouts fall with probability and with edge |
| Pricing.SuggestedStakeFits | writer/src/server.ts:204-209 | the suggested stake, priced again, risks no more than the headroom; it is the largest whose share of the risk does |
| BestAsk.FindBestAsk | writer/src/infoApi.ts:22-40 | the loop answers at the first level that covers the depth, and not at all iff there is no size or too little |
| BestAsk.AskInFull | writer/src/infoApi.ts:22-40 | the answer is the floored average of buying out the fewest levels that cover the depth, never below the best ask |
| BestAsk.AskIsBetweenBestAndLast | writer/src/infoApi.ts:22-40 | the answer lies between the best ask and the last level used |
| BestAsk.AskGrowsWithDepth | writer/src/infoApi.ts:22-40 | asking for more depth never lowers it |
| ExposureBook.SumOver | writer/src/exposure.ts:41-46 | a summing loop over a map computes the sum, in any order |
| ExposureBook.ExposureBook.PruneExpired | writer/src/exposure.ts:35-39 | pruning leaves exactly what a filter by the clock would |
| ExposureBook.ExposureBook.ReservedGlobal | writer/src/exposure.ts:41-46 | the sum of what counts now, as if nothing had ever been pruned |
| ExposureBook.ExposureBook.PerMarket | writer/src/exposure.ts:48-55 | the same for one market, open parlays included |
| ExposureBook.ExposureBook.PerCluster | writer/src/exposure.ts:57-64 | the same for one group, a ticket counted once |
| ExposureBook.ExposureBook.ReservedByKey | writer/src/exposure.ts:68-73 | the same for one account |
| ExposureBook.ExposureBook.ClustersOf | writer/src/exposure.ts:98-102 | the groups of a ticket, each once |
| ExposureBook.ExposureBook.Check | writer/src/exposure.ts:75-110 | the first cap without room answers, with what it has left |
| ExposureBook.ExposureBook.Reserve | writer/src/exposure.ts:112-119 | the book with the reservation |
| ExposureBook.ExposureBook.Release | writer/src/exposure.ts:122-124 | the book without it |
| ExposureBook.ExposureBook.OnMinted | writer/src/exposure.ts:126-129 | the reservation becomes an open parlay |
| ExposureBook.ExposureBook.OnResolved | writer/src/exposure.ts:131-133 | the open parlay is gone |
| ExposureState.ClustersComplete | writer/src/exposure.ts:98-102 | every group a ticket touches is checked, and no other |
| ExposureState.MarketsFit | writer/src/exposure.ts:93-97 | an order that fits leaves every market it touches within its cap |
| ExposureState.ClustersFit | writer/src/exposure.ts:103-106 | and every group |
| ExposureTheorems.PruningIsAFilter | writer/src/exposure.ts:35-39 | for a monotone clock, filtering what was filtered is filtering |
| ExposureTheorems.RedeliveryChangesNothing | writer/src/poker.ts:113-120 | a mint delivered again while its parlay is open is always possible and changes nothing |
| ExposureTheorems.CapsHoldAndQuotesAreCounted | writer/src/exposure.ts:35-133 | in every interleaving, mints delivered again included, all caps hold, and every quote is where its phase says: counted from reservation to resolution or expiry, and never once refused |
| ExposureCaps.ReservationCounts | writer/src/exposure.ts:35-73 | a reservation adds its risk once to the total, its markets, groups and account, until its grace runs out, and to nothing else |
| ExposureCaps.ParlayCounts | writer/src/exposure.ts:48-64 | an open parlay adds its risk once to its markets and groups, and to nothing else |
| ExposureCaps.FitsExactlyWhen | writer/src/exposure.ts:75-110 | an order fits iff its risk fits the allowance, each of its markets, each group it touches and its account |
| ExposureCaps.FullNamesTheFirstCap | writer/src/exposure.ts:84-110 | a refusal names the first cap without room and what that one has left |
| ExposureCaps.AllowanceHolds | writer/src/exposure.ts:88-91 | in every interleaving what is reserved stays within the allowance the last quote was checked against |
| QuoteDesk.DominatingLeg | writer/src/pricing.ts:50-56 | the first leg that alone would pay as much, if there is one |
| QuoteDesk.Price | writer/src/server.ts:132-185 | the reply for each reason not to quote, failed reads included, in the order they are looked for; a price iff there is none, and then it beats every leg alone |
| QuoteDesk.PricedTerms | writer/src/server.ts:171-177 | the payout of a request, with the edge growing by every leg after the first |
| QuoteDesk.QuotedBeatsEveryLeg | writer/src/server.ts:132-181 | a quoted request was read in full, has no settled or unpriced leg, and pays more than any leg alone |
| QuoteDesk.RoomTerms | writer/src/server.ts:194-203 | there is room iff the house's risk fits the allowance, the markets' cap or its in-play share, the groups' and the account's |
| QuoteDesk.CutToHeadroomGetsFurther | writer/src/exposure.ts:84-110 | an order cut to the headroom passes every earlier cap and the one that refused it |
| QuoteDesk.TryReserve | writer/src/server.ts:187-211 | check and reserve are one step of the life of quotes; a refusal suggests a stake that, priced again, fits the cap |
| QuoteDesk.Conclude | writer/src/server.ts:221-226 | a failed signature or journal gives the reservation back, and that is a step too |
| QuoteDesk.ReserveAndSign | writer/src/server.ts:187-227 | a quote is reserved iff it has room and is signed and journalled; otherwise the book is as it was |
| QuoteDesk.HandleQuote | writer/src/server.ts:256-296 | a request let through gets its quote iff it can be quoted, has room, is signed and journalled; only a 200 leaves a reservation, of exactly the quoted risk |
| ScanState.LogsAreEvents | writer/src/poker.ts:184-221 | the logs of a block range are its mints and resolutions |
| ScanState.TickTracks | writer/src/poker.ts:109-126 | a tick, whole or half failed, keeps that relation |
| ScanState.OpenSetIsTheChains | writer/src/poker.ts:96-144 | past what the seed read, the open set is the chain's at the scan position and the tickets read ahead of it, and so the chain's iff there are none; before, it differs only in what the seed saw |
| ScanState.HalfFailedTickReadsAhead | writer/src/poker.ts:113-126 | a run in which a ticket read ahead is open past everything the seed read |
| Poker.BlockRanges | writer/src/poker.ts:239-245 | the ranges tile the blocks without gap or overlap |
| Poker.FetchEvents | writer/src/poker.ts:184-221 | what comes back is exactly the logs from the start to where the next scan resumes, whichever chunk fails |
| Poker.Poker.Seed | writer/src/poker.ts:96-107 | the seeded tickets are open in poker and book, each on its own legs and risk, and the scan resumes at the checkpoint or after the head |
| Poker.Poker.OpenTicket | writer/src/poker.ts:116-117 | a ticket enters poker and book together, its quote leaving the reservations |
| Poker.Poker.TakeMints | writer/src/poker.ts:113-120 | mints are opened in order up to the first whose legs cannot be read, in poker and book alike, and their quotes stop being reserved |
| Poker.Poker.DropResolved | writer/src/poker.ts:121-125 | resolved tickets leave both |
| Poker.Poker.Tick | writer/src/poker.ts:109-126 | a tick is a step of the scan and does to the book what `BookAfter` says: mints it read enter on their own terms, their quotes leave, resolved tickets go, the rest stays |
| Poker.TickIsARunOfTheDesk | writer/src/poker.ts:109-126 | what a tick does to the book, half failed or whole, is a run of mints and resolutions in the life of quotes, and so keeps every cap and account |
| Poker.TakenTicketsCount | writer/src/poker.ts:109-126 | a ticket taken in counts at its own risk in its legs' markets and its quote no longer; the rest is left alone |
| Poker.Poker.Pokes | writer/src/poker.ts:129-143 | the tickets poked are those the dead or void test picks |
| BalanceCheck.NewestIsNewest | keeper/src/pure.ts:65-78 | the sample found is eligible and none eligible is newer |
| BalanceCheck.NewestSampleBefore | keeper/src/pure.ts:65-78 | so is what the loop finds, and nothing is found iff none is eligible |
| BalanceLoop.KeeperVerifier.Attest | src/KeeperVerifier.sol:40-44 | only the keeper attests, and each verdict once |
| BalanceLoop.KeeperVerifier.StatusOf | src/KeeperVerifier.sol:46-51 | a verdict shows after its delay, unless paused |
| BalanceLoop.KeeperVerifier.SetPaused | src/KeeperVerifier.sol:61-67 | only the owner pauses |
| BalanceLoop.BalanceLoop.RecordSample | keeper/src/balance.ts:30-35 | a sample is appended, the oldest beyond twenty goes, other vaults stay |
| BalanceLoop.BalanceLoop.Track | keeper/src/balance.ts:41-60 | a vault's second operation is ignored |
| BalanceLoop.BalanceLoop.ResolveLiveBaseline | keeper/src/balance.ts:63-79 | only a sample older than the block is confident |
| BalanceLoop.BalanceLoop.SeeLog | keeper/src/balance.ts:115-123 | a log makes the vault's operation tracked with such a baseline |
| BalanceLoop.BalanceLoop.TrackIfStillPending | keeper/src/balance.ts:81-91 | a restart tracks only what has no verdict, without a baseline |
| BalanceLoop.BalanceLoop.TickVault | keeper/src/balance.ts:169-238 | a vault's turn: the sample, the decision, what is attested, what is forgotten; other vaults stay |
| BalanceLoop.BalanceLoop.Tick | keeper/src/balance.ts:169-238 | a tick is the turns of the vaults on the list, in order |
| KeeperTheorems.ConfidentBaselineIsExact | keeper/src/balance.ts:37-39 | a confident baseline is the balance the operation found: neither after it nor from before the previous one took effect |
| KeeperTheorems.TickVerdictIsRight | keeper/src/pure.ts:43-55 | a verdict formed for an open operation is what Core did |
| KeeperTheorems.StepKeeps | keeper/src/balance.ts:30-238 | every step, restarts and late answers included, keeps samples, baselines and verdicts right |
| KeeperTheorems.RunKeeps | keeper/src/balance.ts:30-238 | so does every run |
| KeeperTheorems.VerdictsAreTruthful | src/KeeperVerifier.sol:40-51 | what the verifier answers is what Core did, in every run |
| KeeperTheorems.SentVerdictsAreRight | keeper/src/balance.ts:132-163 | an attestation that can still land is right: no true without an execution, no false after one |
| KeeperTheorems.ConfidentOpsAreDecided | keeper/src/balance.ts:199-233 | with a confident baseline the next tick past execution, or past the timeout, attests |
| KeeperEffects.VerdictShowsExactlyWhen | src/KeeperVerifier.sol:46-51 | a verdict shows iff not paused, attested, and the delay has passed, and is the one attested |
| KeeperEffects.PausedNothingFinishes | src/KeeperVerifier.sol:46-51 | while the verifier stays paused no operation finishes and none begins behind it |
| KeeperEffects.AttestationsStand | src/KeeperVerifier.sol:40-44 | what was attested once stands for good |
| KeeperEffects.TickDecidesExactlyWhen | keeper/src/pure.ts:30-55 | a tick attests true iff the balance moved by what the operation moves, false iff not, past the timeout and sure |
| KeeperEffects.ForgottenOnlyWhenAttested | keeper/src/balance.ts:132-238 | an operation is forgotten iff its verdict's attestation landed or was there already |
| KeeperEffects.DetectionTakesTheNewestSample | keeper/src/balance.ts:63-79 | a baseline is sure iff some sample predates the block by two seconds and no more than a minute beyond, and is the newest such |
| KeeperEffects.HistoryIsTheLastTwenty | keeper/src/balance.ts:30-35 | of any series of samples the last twenty are kept, in order |
| JointRuns.VerdictsMakeStepsTruthful | src/OutcomeVault.sol:299-301 | a vault that acts on this verifier takes truthful steps |
| JointRuns.VaultStepAgrees | src/OutcomeVault.sol:152-217 | what the vault queues and Core does is always a possible step of the keeper's world, and the two keep agreeing on what became of each operation |
| JointRuns.StepKeeps | keeper/src/balance.ts:30-238 | every step of the two together keeps both invariants and the agreement |
| JointRuns.JointRunsAreHonest | src/OutcomeVault.sol:152-217 | every run of vault and keeper together is an honest run of the vault |
| JointRuns.JointRunsAreCovered | src/OutcomeVault.sol:152-226 | so everything owed is covered in it, with nothing assumed of verdicts |
| SettlementState.ProjectionSettles | src/OutcomeVault.sol:232-246 | the settlement view of a vault settles as the vault does |
| SettlementLoop.OutcomeLeg.ReceiveSettlement | src/OutcomeLeg.sol:31-39 | only the relay, only for its vault, once, within one |
| SettlementLoop.SettlementLoop.RememberFraction | keeper/src/settlement.ts:28-47 | memory always has the observation, the disk if it works |
| SettlementLoop.SettlementLoop.RelayIfNeeded | keeper/src/settlement.ts:76-109 | a relay is sent iff one is due, and a leg's relays are a hold apart |
| SettlementLoop.DueExactlyWhen | keeper/src/pure.ts:163-166 | a relay is due iff the leg is not settled and none was sent in the last three minutes |
| SettlementLoop.SettlementLoop.TickVault | keeper/src/settlement.ts:112-162 | memory, disk and what is signed move as the state machine says; a relay is sent iff the vault is settled and one is due |
| SettlementTheorems.StepKeeps | keeper/src/settlement.ts:112-162 | every step keeps vaults, caches, messages and legs at Core's value |
| SettlementTheorems.FractionsAreCores | src/OutcomeVault.sol:232-246 | whichever path settled it, a vault's fraction is Core's value, and a leg's is its source vault's |
| SettlementTheorems.SettlementIsFinal | src/OutcomeLeg.sol:31-39 | nothing later changes a settled vault, a settled leg or a resolved value |
| SettlementTheorems.PersistedFractionsSurvive | keeper/src/settlement.ts:28-32 | what reached the disk once survives every crash and disk failure |
| SettlementTheorems.PersistedVaultsCanSettle | keeper/src/settlement.ts:146-157 | so a pruned vault still settles at the right fraction, once idle |
| SettlementTheorems.ResolvedTickRemembersAndSettles | keeper/src/settlement.ts:136-145 | the tick that sees an outcome resolved keeps its value and signs a settlement that lands at it, even once Core has forgotten |
| SettlementTheorems.RelaysSettleTheirLeg | src/SettlementRelay.sol:37-49 | a relay of a settled vault settles its leg at the vault's fraction |
| FractionCache.DecimalRoundTrip | keeper/src/pure.ts:86-101 | a fraction's decimal string parses back to it |
| FractionCache.DecodeFractionCache | keeper/src/pure.ts:91-104 | the loop decodes entry by entry and fails at the first bad one |
| FractionCache.DecodesInFullOrNotAtAll | keeper/src/pure.ts:90-104 | a file is accepted iff all entries are valid and name different vaults, and then nothing is lost or added |
| FractionCache.EntriesByCharacter | keeper/src/pure.ts:96-100 | which entries are valid, character by character, with the value read by decimal places |
| FractionCache.EncodeIsTheLoweredCache | keeper/src/pure.ts:86-88 | the file holds each lowered key once, with the latest fraction's digits |
| FractionCache.RoundTrip | keeper/src/pure.ts:86-104 | decoding the encoded cache gives the lowered cache iff it holds only addresses and fractions up to one, and fails otherwise |

## Left out

- Signatures, EIP-712 digests and op keys: an unforgeable `signed` flag and the ids themselves stand for them.
- RPC, HTTP, CORS, logins, mail and spreadsheets, GraphQL transport and all user interface.
- Feed parsing and live priors (writer/src/livePrior.ts), request validation and rate limits: string matching and guards with no invariant.
- Owner setters of the contracts other than those a theorem quantifies over; ERC-20 and ERC-721 approvals and metadata.
- The text of JSON: the cache file is its sequence of entries.
- The taker index file of the poker and its reorganisation handling beyond the checkpoint it resumes from.
- Relay fees and gas (keeper/src/pure.ts:149-161): plain arithmetic; a missing gas price holds a relay back.
- Alert throttling, staleness alerts, watchdogs, serialisation of sends, quote journal contents, waitlist.
- The ENOENT and temporary-file handling of `replaceFile`.
- Chance and portfolio summaries of the web (web/lib/positions.ts:36-60, 195-207).
- KeeperTheorems.ConfidentOpsAreDecided: an operation first seen after a restart may be held for ever, as the source intends; nothing is claimed about when it is decided.
- VaultTheorems.SharesAreBacked: says nothing of locked collateral once Core has credited the settlement, which empties it.
- SubgraphIndex.Store.OnMint: the block, hash, time and transaction a ticket was minted in are not kept.
- SubgraphIndex.Store.OnTransfer: nor are those of its burn.
- SubgraphIndex.Store.OnResolve: nor are those of its resolution.
- Poker.TickIsARunOfTheDesk: mints replayed from a checkpoint for tickets resolved before the start are not covered; such a ticket counts as open until the scan reaches its resolution.
- QuoteDesk.HandleQuote: the earlier checks (readiness, rate limit, admission, validation) enter as their reply.
