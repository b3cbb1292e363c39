# Sportsbook verification

A Dafny model of the book: a small betting book for golf matches whose money
moves through a double-entry ledger, whose lines move with the action, whose
match results are agreed by two sides, and whose events leave through an
outbox. The model follows the Go code's branches, constants and error cases;
the proofs state what the code keeps over every input, every run and every
interleaving.

`dafny verify dfyconfig.toml` checks everything.

## How it is laid out

| part | modules |
|---|---|
| Money, odds, balanced postings | `Results`, `Ledger` |
| Line pricing and movement | `RealSums`, `Odds`, `Pricing`, `LineMovement`, `LineStore` |
| Grading wagers and parlays | `Wagers`, `Settlement`, `Parlays` |
| The book as a transaction machine | `Totals`, `BookState`, then its proofs `BookInvariant`, `BookSafety`, `BookSettlement`, `BookChanges`, `BookHistory`, `BookPayments`, `BookRuns`, `BookOutcomes`, `WaysOut`, `HeldParlays` |
| The store that updates tables in place | `SettlementTx`, `BookStore` |
| Placement checks | `Placement` |
| What each operation answers: when it commits, what it writes, what it moves | `WagerAnswers`, `ParlayAnswers`, `GradingAnswers`, `MarketAnswers`, `MatchAnswers` |
| Concurrent transactions, step by step | `AcceptRace`, `ParlayRace`, `LockOrder`, `LockPlans`, `CapRace` |
| Dashboard, exposure board, settle-up page | `Dashboard`, `Exposure`, `Forecast`, `Text`, `SettleUp` |
| Match results | `Match`, `MatchAggregate` |
| Event outbox | `Outbox`, `OutboxStore` |

Each store operation is one total function from a book and its arguments to a
new book or an error (`BookState`), and a method of `BookStore.Store` that
computes it in place with the source's loops. `Run(ops)` is the book after any
sequence of operations; a failed operation leaves the book as it was. The store
carries its own operation history, so everything proved of runs holds of it.
The answer modules state what each operation does in terms of its request and the
tables alone, so they can be read without the definitions of `BookState` and
`Match`. Two things the code leaves to the database or to Go's map order, the
order in which a market's wagers are loaded and in which its parlays are visited,
are an arbitrary `Plan` of each settlement.

Three operations of the runs do not check the market as they commit.
`OpPlaceLate` is a placement whose unlocked read of an open market came some time
before its insert, and `OpAcceptParlayLate` a parlay acceptance whose unlocked
count of decided legs did; the code allows both. `OpAcceptUnchecked` is an
acceptance from before acceptance looked at the market at all; its rows are what
a regrade exists for, and without them no wager is ever stranded. Properties that
exclude one of them say so (`IsChecked`, `ParlaysOnTime`); the rest hold with all.

## What the proofs say about the code

* A -100 opening line comes back as +100 even with no action, and one beyond
  the posted range is pulled into it: an untouched line is kept exactly when it
  is neither (`LineMovement.UntouchedLine`).
* The comment on automatic repricing calls it a no-op below two selections. The
  code writes the opening line across, so it is one exactly when the offered line
  is the opening line (`LineStore.FewSelectionsFollowOpening`); a selection opened
  at +150 and offered at +120 moves (`LineStore.OneSelectionMoves`).
* `Profit`'s second overflow guard is never taken
  (`Ledger.ProfitFailsExactlyOnOverflow`).
* A parlay whose survivors combine to a line shorter than +100 cannot be
  settled, and blocks the market that decides it
  (`Parlays.SettlementRefusedExactly`). With the standard juice,
  -1000, -1000 and +400 is written at +465, and once both favourites have won,
  a push or void of the last leg is refused (`Parlays.VoidingTheLastLegIsRefused`).
  `BookOutcomes.SettlementCommitsExactly` says exactly when a market settlement
  commits.
* No interleaving of placements, acceptances and settlements leaves a wager
  accepted on a settled or voided market (`AcceptRace.NoWagerIsStranded`): a
  placement's insert waits for the market's row, and the acceptance that follows
  sees the decision.
* Acceptance does not refuse a market closed without action. A placement that
  read the market open and is inserted after that closure leaves a wager that can
  be accepted (`AcceptRace.LatePlacementIsReachable`) and is then held, whatever
  else happens, until it is voided (`WaysOut.HeldUntilVoided`). With the
  market check these are exactly the accepted wagers on decided markets
  (`WaysOut.HeldOnDecidedExactly`).
* Settlement resolves parlay legs in its own transaction so that no parlay is left
  with an open leg on a finished market. An acceptance that counted the decided
  legs before the settlement committed, and commits after its leg query, leaves one
  (`ParlayRace.StrandsExactly`, `ParlayRace.StrandingIsReachable`). Such a parlay is
  never paid, nor its stake returned: only a loss on another leg ends it
  (`ParlayRace.StrandedUntilALoss`). A held parlay can end exactly while one of its
  open legs is on an undecided market (`HeldParlays.HeldParlayEndsExactly`).
* The settlements of a parlay's legs never pay it twice. One that reads the legs
  after another ended the parlay is refused with everything it did for its market,
  and succeeds when it is sent again (`ParlayRace.AbortsExactly`,
  `ParlayRace.RetryCommits`).
* Two transactions can deadlock exactly when the first row that both want is not
  the same for both (`LockOrder.TwoDeadlockExactly`). So a settlement can deadlock
  with an acceptance elsewhere exactly when what it pays is not all funded from one
  account (`LockPlans.SettlementDeadlocksExactly`); a placement with exactly the
  repricings and gradings of its own market, which lock the market first where the
  placement locks its side first (`LockPlans.RepricingDeadlocksExactly`,
  `LockPlans.GradingDeadlocksExactly`); and two settlements over parlays they share,
  even when one member funds everything (`LockPlans.SharedParlayCanDeadlock`,
  `LockPlans.VisitOrdersDeadlockExactly`). The database then aborts one of the two.
* The caps on a side hold in every interleaving (`CapRace.SideCapsHold`). The cap
  on what a member may have on a whole market, documented as a limit at any one
  time, holds exactly when the room on its sides adds up to no more than it:
  placements on different sides lock different rows and read the same sum
  (`CapRace.MarketCapHoldsExactly`). Two sides without caps of their own take a
  member to twice the cap (`CapRace.MarketCapCanBeDoubled`).
* A pending submission can be confirmed exactly when somebody can act for a side
  other than the one it is recorded for (`Match.ConfirmableExactly`). One by an
  administrator on neither side can be resolved only by an override
  (`Match.OutsiderLeavesItUnattributed`, `Match.UnattributedSubmissionNeedsOverride`).
* The retry delay is the documented one exactly when its shift is harmless; with
  other settings than the shipped ones it can wrap to a short delay
  (`OutboxStore.DelayIsDocumentedExactly`, `OutboxStore.DelayCanWrap`).

## Model

| member | source | states |
|---|---|---|
| `Ledger.ProfitIsNearestCent` | internal/ledger/odds.go:34-64 | profit is the stake times the odds' ratio, rounded to the nearest cent with exact halves up |
| `Ledger.ProfitFailsExactlyOnOverflow` | internal/ledger/odds.go:34-64 | on valid input profit fails exactly when stake times numerator leaves int64 |
| `Ledger.ProfitExactly` | internal/ledger/odds.go:34-64 | profit is the nearest whole cents, positive exactly when twice the exact amount reaches a cent, and fits with the stake exactly when the product and the return stay in int64 |
| `Ledger.ProfitByLine` | internal/ledger/odds.go:34-64 | by the line alone: when a stake has a profit, within half a cent of what value, and when it is positive |
| `Ledger.EarnsAtMostExactly` | internal/ledger/odds.go:34-64 | profit stays within a ceiling exactly when the stake and the line say so |
| `Ledger.ProfitMonotone` | internal/ledger/odds.go:34-64 | a smaller stake never fails where a larger one succeeds, nor earns more |
| `Ledger.ValidatePostings` | internal/ledger/posting.go:88-127 | accepts exactly two or more non-zero, single-currency postings on distinct accounts that sum to zero with every partial sum in int64 |
| `Odds.AmericanOfImplied` | internal/pricing/pricing.go:215-259 | a line survives the trip through its implied probability, except that -100 becomes +100 and large lines are clamped |
| `Odds.ImpliedIsFair` | internal/pricing/pricing.go:215-221 | at its implied probability a line pays back exactly what is staked |
| `Odds.AmericanIsNearest` | internal/pricing/pricing.go:226-259 | the line is within half a point of the exact one on both sides of even money, halves away from it, and the last line beyond the range |
| `Odds.AmericanMonotone` | internal/pricing/pricing.go:226-259 | a larger probability never gives a longer line, through rounding and clamping |
| `Odds.PostedClearsFloor` | internal/pricing/pricing.go:112-128 | one point of walk-back is always enough to bring the posted line to its floor |
| `Odds.PostedIsFirstClear` | internal/pricing/pricing.go:112-128 | no line from the nearest toward the book that clears the floor comes before the posted one |
| `Odds.PostedMonotone` | internal/pricing/pricing.go:112-128 | rounding and walk-back together preserve the order of probabilities |
| `Odds.WalkBack` | internal/pricing/pricing.go:112-128 | the walk-back loop ends on the posted line |
| `Pricing.ApplyDriftFloors` | internal/pricing/pricing.go:165-193 | the clamp-and-rescale loop returns the larger of floor and scaled weight for one scale at most one, summing to the overround, every entry at or above its floor, through its return and not its pass bound |
| `Pricing.ClampPass` | internal/pricing/pricing.go:165-193 | one pass clamps exactly the entries under their floors |
| `Pricing.DriftPass` | internal/pricing/pricing.go:165-193 | one pass keeps the sum, rescales the free entries by one factor and never clamps them all |
| `Pricing.Reprice` | internal/pricing/pricing.go:69-129 | validation, tilt, floors, rounding and walk-back give the board their declarative specification describes |
| `Pricing.FloorSum` | internal/pricing/pricing.go:147-159 | the floors keep a fifth of the margin above even money |
| `LineMovement.RepricingIsMonotone` | internal/pricing/pricing.go:69-129 | stake added to one selection never lengthens its posted line and never shortens another's |
| `LineMovement.RepricingIsDetermined` | internal/pricing/pricing.go:69-129 | the board depends on opening odds, stakes and liquidity alone |
| `LineMovement.TiltedTogether` | internal/pricing/pricing.go:90-107 | above their floors, two selections stand as opening probability times the exponential of stake over liquidity, capped at 40 |
| `LineMovement.LiquidityIsAScale` | internal/pricing/pricing.go:92-98 | multiplying every stake and the liquidity by one factor leaves the board as it is |
| `LineMovement.FloorIsAShare` | internal/pricing/pricing.go:147-193 | no selection falls under its floor, its opening probability's share of one plus a fifth of the margin |
| `LineMovement.UntouchedLine` | internal/pricing/pricing.go:226-259 | with no stakes a line is kept exactly when it is not -100 and within the posted range |
| `LineMovement.NoMarginNoMovement` | internal/pricing/pricing.go:147-193 | a market with no margin does not move whatever is bet |
| `LineMovement.QuotesKeepMargin` | internal/pricing/pricing.go:69-159 | lines quoted under separate stake histories together keep at least a fifth of the opening margin |
| `LineMovement.NoArbitrage` | internal/pricing/pricing.go:131-159 | for any stakes at such lines some outcome returns at most the total over one plus a fifth of the margin, plus half a cent |
| `LineStore.TargetIsUnique` | internal/bettingpg/reprice.go:22-27 | opening odds, accepted stakes and liquidity leave one line to offer, so the same action brings the same line back |
| `LineStore.TargetIsEnginesOrOpening` | internal/bettingpg/setline.go:124-140 | the engine prices a dynamic market of two sides or more with liquidity from its own stakes; any other offers its opening line |
| `LineStore.FewSelectionsFollowOpening` | internal/bettingpg/setline.go:127-142 | below two selections repricing writes the opening line, so no row changes exactly when that line is offered already |
| `LineStore.OneSelectionMoves` | internal/bettingpg/reprice.go:16-20 | one selection whose offered line moves, against the comment |
| `LineStore.Lines.RepriceInTx` | internal/bettingpg/setline.go:111-164 | the offered line becomes the target with one audit row per price that moved; repeated for the same stakes it writes nothing |
| `LineStore.Lines.RepriceAfterWager` | internal/bettingpg/reprice.go:29-66 | only an open, dynamic market moves, with one audit row per price that moved |
| `LineStore.Lines.SetOpeningLine` | internal/bettingpg/setline.go:29-93 | commits exactly for valid odds on a priceable market's own selection, and leaves every line on target |
| `Settlement.SettlementMovesTheStake` | internal/betting/settle.go:404-536 | a settlement is two or three valid postings that take the stake from escrow, give the member the return and the house the rest, and is refused only when a win's profit is positive and cannot be paid in int64 |
| `Settlement.SettlementReturns` | internal/betting/settle.go:436-478 | an undivided win returns stake and potential profit, a loss nothing, a push or void the stake |
| `Settlement.TiedWinReturns` | internal/betting/settle.go:80-87 | a win split among `d` ways is paid on the whole cents of stake over `d`, and what they earn at its odds |
| `Settlement.RidingIsUnique` | internal/betting/settle.go:80-87 | those riding cents are the only such number |
| `Settlement.TieIsSplitAmongWinners` | internal/betting/settle.go:250-273 | a dead heat is split among the winners, two at least, or as many ways as declared, and otherwise not |
| `Settlement.ReturnedShrinksWithDivisor` | internal/betting/settle.go:80-87 | splitting a win more ways never returns more |
| `Settlement.SplitAcceptedWagers` | internal/betting/settle.go:369-383 | the accepted wagers in ID order, or refusal of a wager of another market |
| `Settlement.GradeWagers` | internal/betting/settle.go:152-241 | the grading loop settles each accepted wager once and totals exactly what it settled |
| `Settlement.SettlementIgnoresInputOrder` | internal/betting/settle.go:369-383 | settlements do not depend on the order wagers were loaded in |
| `Settlement.HouseTakesTheDifference` | internal/betting/settle.go:197-227 | grading a market moves total stake less total returned to the house and the total stake out of escrow |
| `Settlement.RecordedDivisor` | internal/bettingpg/regrade.go:120-149 | the row loop reads back the largest recorded divisor |
| `Settlement.RecordedDivisorReplays` | internal/betting/settle.go:250-273 | declaring the divisor read back from the rows applies the divisor first applied |
| `Parlays.ParlayOddsFor` | internal/betting/parlayprice.go:59-97 | the two loops compute the juiced combined probability and its line, with the same refusals |
| `Parlays.ParlayPricedExactly` | internal/betting/parlayprice.go:59-97 | a combination has a line exactly when its juiced probability is at most one half |
| `Parlays.JuicedByLeg` | internal/betting/parlayprice.go:70-84 | each further leg multiplies the probability by its own and by one unit of juice |
| `Parlays.ParlayLineIsNearest` | internal/betting/parlayprice.go:59-97 | the line is within half a point of the juiced probability's exact line |
| `Parlays.ParlayWrittenExactly` | internal/betting/parlay.go:160-176 | priced exactly with two to eight valid legs, even money or longer, and a profit of a cent or more within the ceiling |
| `Parlays.CombinedIgnoresOrder` | internal/betting/parlayprice.go:70-84 | the combined probability does not depend on leg order |
| `Parlays.GradeParlayLegs` | internal/betting/parlay.go:212-257 | the leg loop grades as the scan of winners, losses and open legs does |
| `Parlays.EarlyLossIsFinal` | internal/bettingpg/parlay.go:419-444 | settling at the first loss gives what every completion of the open legs gives |
| `Parlays.GradingIgnoresLegOrder` | internal/betting/parlay.go:212-266 | grading a resolved parlay does not depend on leg order |
| `Parlays.AllWinPaysTheStruckProfit` | internal/betting/parlay.go:160-187 | an all-win parlay grades to the profit struck at placement |
| `Parlays.SettlementRefusedExactly` | internal/bettingpg/parlay.go:446-505 | a parlay is refused exactly when every leg is resolved without a loss and the winners combine to more than one half after the juice, or the profit at their line leaves int64 or is under half a cent |
| `Parlays.VoidingTheLastLegIsRefused` | internal/betting/parlayprice.go:85-96 | a concrete parlay that is written but cannot be settled with its last leg dropped |
| `BookInvariant.WagerStep` | internal/bettingpg/store.go:303-329 | one valid transaction about one wager, matched by that wager's row, keeps every ledger invariant of every other row |
| `BookSafety.ReleaseKeepsLedger` | internal/bettingpg/voidwager.go:59-86 | a release of a whole stake always posts and keeps the ledger invariants |
| `BookSafety.ReductionKeepsLedger` | internal/betting/reducewager.go:69-99 | a reduction always posts its refund and keeps the accepted amount equal to stake plus reductions |
| `BookSettlement.ApplyIsSafe` | internal/bettingpg/market.go:321-364 | posting the settlements of distinct accepted wagers never fails and keeps the ledger invariants |
| `BookSettlement.SettleWithSettles` | internal/bettingpg/market.go:148-382 | a committed settlement grades exactly the market's accepted wagers as owed, decides the market, adds one version, and marks and grades exactly the affected parlays |
| `BookSettlement.VisitingChanges` | internal/bettingpg/parlay.go:396-406 | visiting parlays in any order grades each decided one once and changes nothing else |
| `BookChanges.StepIsAChange` | internal/bettingpg/market.go:148-382 | every operation keeps the books sound and is one of five kinds of change |
| `BookHistory.ReplayRepeats` | internal/bettingpg/market.go:305-319 | the divisor read from a decision's record gives the same record again |
| `BookHistory.ChangeKeepsLive` | internal/bettingpg/parlay.go:225-236 | no change leaves a live parlay waiting on a decided market, nor a live wager on one, except a parlay accepted behind a decision and a wager accepted unchecked or inserted late on a market closed without action |
| `BookPayments.ChangeKeepsPayments` | internal/bettingpg/market.go:321-364 | every settlement on the ledger stays exactly what its version's record owes its wager |
| `BookRuns.RunIsHealthy` | internal/bettingpg/market.go:148-382 | every reachable book satisfies all the invariants |
| `BookRuns.EscrowHoldsLiveStakes` | internal/bettingpg/accept.go:58-177 | over every run escrow equals the stakes of accepted wagers and parlays, per currency |
| `BookRuns.AccountsSumToZero` | internal/ledger/posting.go:88-127 | over every run all accounts of a currency sum to zero |
| `BookRuns.AcceptedWagersAreUndecided` | internal/bettingpg/accept.go:80-94 | over every run with the market check an accepted wager's market is undecided, or was closed without action before the wager was inserted |
| `BookRuns.AcceptedParlaysWait` | internal/bettingpg/parlay.go:357-440 | every accepted parlay has no loss and an open leg, and only undecided markets behind its open legs unless its acceptance committed behind a decision |
| `BookRuns.AcceptedWagersCanBeVoided` | internal/bettingpg/voidwager.go:23-99 | on every reachable book a held wager can be voided and its stake returns to the member |
| `BookRuns.HistoryOnlyGrows` | internal/bettingpg/regrade.go:75-78 | from any point on, the ledger and settlement versions are only added to and final rows do not change |
| `BookRuns.WagerIsConserved` | internal/bettingpg/accept.go:191-235 | accepted amount equals stake plus reductions, a terminal wager has exactly one release of its last stake, and potential profit is the odds' profit on the stake |
| `BookRuns.AcceptReplays` | internal/bettingpg/accept.go:65-78 | accepting an accepted wager again verifies and changes nothing |
| `BookRuns.ReduceReplays` | internal/bettingpg/reducewager.go:81-97 | an applied reduction sent again, then or later, changes nothing |
| `BookRuns.VoidReplays` | internal/bettingpg/voidwager.go:42-57 | voiding again after an administrator's void changes nothing |
| `WagerAnswers.PlaceCommitsExactly` | internal/bettingpg/place.go:37-117 | a new wager is stored exactly when admitted on an offered side of an open market, in its currency, with a profit that fits and is not zero |
| `WagerAnswers.PlacedRow` | internal/betting/place.go:157-176 | its row field by field: as asked, pending, at the line offered or the one read earlier, with what the stake earns at it; every other row unchanged |
| `WagerAnswers.UsedKeyStoresNothing` | internal/bettingpg/place.go:94-111 | a used key is answered with the stored wager exactly when it has the terms now asked for, and is otherwise a conflict |
| `WagerAnswers.AcceptCommitsExactly` | internal/bettingpg/accept.go:80-127 | on every reachable book a pending wager is accepted exactly when its market is not settled, voided or cancelled and balance plus credit limit covers the stake |
| `WagerAnswers.AcceptMoves` | internal/bettingpg/accept.go:115-177 | it moves exactly the stake from the funding account to escrow, which leaves that account at no less than minus the limit |
| `WagerAnswers.OthersAreNotAccepted` | internal/betting/place.go:212-222 | a missing, rejected, settled or refunded wager is not accepted |
| `WagerAnswers.RejectAnswers` | internal/bettingpg/accept.go:240-287 | rejected exactly while pending and with a reason, or again for the same one; withdrawn only by its member |
| `WagerAnswers.ReduceCommitsExactly` | internal/bettingpg/reducewager.go:37-146 | an accepted wager is reduced exactly on an undecided market to a positive smaller stake, or to one reduced to before |
| `WagerAnswers.ReduceMoves` | internal/betting/reducewager.go:69-102 | the difference returns from escrow, and the row keeps its odds with the profit the new stake earns |
| `WagerAnswers.VoidAnswers` | internal/bettingpg/voidwager.go:23-99 | a void commits exactly for an accepted wager or as its own repeat, and returns the whole stake from escrow |
| `ParlayAnswers.PlaceParlayExactly` | internal/betting/parlay.go:73-189 | a new parlay on distinct offered sides is stored exactly when admitted, at even money or longer, with a profit of a cent or more within the ceiling |
| `ParlayAnswers.OnlyLegsAreWritten` | internal/betting/parlay.go:107-158 | any other picks are refused |
| `ParlayAnswers.PlacedParlay` | internal/betting/parlay.go:160-189 | its row field by field: legs at the offered lines, the line of their juiced probability and what the stake earns at it |
| `ParlayAnswers.UsedParlayKeyStoresNothing` | internal/bettingpg/parlay.go:132-159 | a used key is answered with the stored parlay exactly when it has the stake, line and sides now asked for |
| `ParlayAnswers.AcceptParlayExactly` | internal/bettingpg/parlay.go:194-313 | on every reachable book a pending parlay is accepted exactly when no leg's market is decided and balance plus credit limit covers the stake |
| `ParlayAnswers.AcceptParlayMoves` | internal/bettingpg/parlay.go:246-313 | it moves exactly the stake from the funding account to escrow, which leaves that account at no less than minus the limit |
| `ParlayAnswers.ParlayStatesAnswer` | internal/bettingpg/parlay.go:207-223 | an accepted parlay is accepted again for nothing, an ended one never, and a pending one alone is rejected |
| `MarketAnswers.CreateExactly` | internal/bettingpg/create.go:74-205 | a market is created as a draft exactly under a new ID with valid lines |
| `MarketAnswers.OpenAndCloseExactly` | internal/bettingpg/market.go:18-60 | a draft opens and an open market closes, each again for nothing, and no other |
| `MarketAnswers.CloseWithoutActionExactly` | internal/bettingpg/noaction.go:37-108 | closed without action exactly when it is no match market, is closed or pending, and has no pending or accepted wager |
| `MarketAnswers.MoveLineExactly` | internal/bettingpg/setline.go:28-90 | a line moves exactly on a side of a draft or open market, to valid odds, and nothing else moves |
| `MarketAnswers.SettleUpExactly` | internal/bettingpg/adjust.go:69-135 | a settle-up is recorded exactly for a positive amount, and moves it between member and house in the direction given; again for nothing |
| `BookOutcomes.EqualBetsArePaidAlike` | internal/bettingpg/regrade.go:79-149 | wagers with equal stake, odds and selection are paid the same, whichever version graded them |
| `GradingAnswers.WagerIsPaidByItsGrade` | internal/betting/settle.go:404-536 | over every run each wager settlement on the ledger pays what a recorded decision says: the riding share and its profit, nothing, or the stake; the house takes the rest |
| `GradingAnswers.GradingIsRecorded` | internal/bettingpg/market.go:245-319 | a grading adds one version with its outcome and, on the winning sides, the number of winners it was split among |
| `GradingAnswers.VoidIsRecorded` | internal/bettingpg/market.go:139-319 | a void adds one version that grades nothing |
| `GradingAnswers.EveryAcceptedWagerIsGraded` | internal/bettingpg/market.go:321-364 | every accepted wager of the market is then graded or refunded as its side was, and no other row is touched |
| `GradingAnswers.EveryOpenLegIsMarked` | internal/bettingpg/parlay.go:357-394 | every open leg on the market gets its side's grade, and no other leg is touched |
| `GradingAnswers.RegradeGradesTheStranded` | internal/bettingpg/regrade.go:79-149 | a regrade grades the stranded wagers by the first decision, and finds something only on a settled market with an accepted wager |
| `BookOutcomes.NothingIsStranded` | internal/bettingpg/regrade.go:29-62 | with acceptance checking the market there is never anything to regrade |
| `BookOutcomes.RegradeReplays` | internal/bettingpg/regrade.go:79-149 | a regrade adds a copy of the first decision and leaves no accepted wager on the market |
| `BookOutcomes.SettlementCommitsExactly` | internal/bettingpg/market.go:148-382 | grading or voiding an undecided market commits exactly when every winning wager's return fits in int64 and every parlay it decides has winners with a line that pays at least a cent within int64 |
| `WaysOut.RegradeCommitsExactly` | internal/bettingpg/regrade.go:79-149 | on every reachable book a regrade commits exactly when every stranded win fits in int64 and every parlay its marks decide pays; without late acceptances no parlay is in its way |
| `HeldParlays.LosingLegEndsTheParlay` | internal/bettingpg/parlay.go:413-444 | a settlement that grades an open leg of an accepted parlay a loss ends the parlay, whatever its other legs wait for |
| `HeldParlays.HeldParlaysHaveAWayOut` | internal/bettingpg/parlay.go:413-444 | on every reachable book each open leg of a held parlay on an undecided market gives a grading that commits, in whatever order rows are met, and ends the parlay |
| `HeldParlays.HeldParlayCanEnd` | internal/bettingpg/market.go:131-134 | such a parlay is ended by one more settlement, for which a plan always exists |
| `HeldParlays.HeldParlayEndsExactly` | internal/bettingpg/parlay.go:357-440 | with the market check a held parlay can end exactly when one of its open legs is on a market still to be decided |
| `HeldParlays.StuckForGood` | internal/bettingpg/market.go:366-372 | a held parlay whose open legs are all on decided markets stays held through every further run |
| `HeldParlays.BehindWereAcceptedLate` | internal/bettingpg/parlay.go:222-236 | every parlay in the exception was accepted by a commit behind the decision of one of its legs |
| `HeldParlays.OnTimeParlaysWait` | internal/bettingpg/parlay.go:222-236 | when every acceptance counts as it commits, accepted parlays wait only on undecided markets |
| `WaysOut.LateWagersWereInsertedLate` | internal/bettingpg/place.go:45 | every wager in the exception was new at a placement whose market was read open before it was closed without action |
| `WaysOut.LateStays` | internal/bettingpg/noaction.go:57-108 | a wager inserted late stays on its market, and that stays closed without action |
| `WaysOut.HeldOnDecidedExactly` | internal/bettingpg/accept.go:80-94 | with the market check, an accepted wager is held either on an undecided market or on one closed without action, and there exactly when it was inserted late |
| `WaysOut.LateWagerCanBeHeld` | internal/bettingpg/accept.go:91-94 | any such pending wager the member can pay for is accepted |
| `WaysOut.HeldUntilVoided` | internal/bettingpg/market.go:148-176 | once accepted it stays held through every further run that does not void it |
| `BookOutcomes.AllWinParlaysArePaidInFull` | internal/bettingpg/parlay.go:446-525 | a parlay whose legs all won was paid its stake and the profit struck at placement |
| `BookOutcomes.LosingParlaysArePaidNothing` | internal/bettingpg/parlay.go:419-444 | a parlay with a lost leg was settled for nothing, open legs or not |
| `ParlayAnswers.ParlayIsPaidByItsLegs` | internal/bettingpg/parlay.go:446-525 | over every run each parlay settlement pays by the legs: nothing after a loss, the stake when nothing won, otherwise what the stake earns at the winners' line |
| `SettlementTx.PostSettlements` | internal/bettingpg/market.go:321-364 | the posting loop applies the settlements in order and stops at the first refusal |
| `SettlementTx.MarkAccepted` | internal/bettingpg/parlay.go:357-394 | the leg loop marks every open leg of every accepted parlay and collects exactly the affected ones |
| `SettlementTx.SettleOneParlay` | internal/bettingpg/parlay.go:413-525 | waits, grades or refuses as the decision of the parlay says |
| `SettlementTx.ResolveParlayLegs` | internal/bettingpg/parlay.go:357-407 | marking and visiting together, in whatever order the affected set is met |
| `BookStore.Store.PlaceWager` | internal/bettingpg/place.go:37-117 | in place: one pending row at the offered line, as read then or earlier, with its profit, the stored row for a repeated key, or the refusal and no table changed |
| `Placement.CheckPlacement` | internal/betting/place.go:75-176 | the checks in their order give a profit exactly for an open market in its window, an active unrestricted selection, room under all three caps and a positive profit within int64 and the ceiling |
| `Placement.PlacedExactly` | internal/bettingpg/place.go:37-117 | a new wager goes onto the book exactly when its command passes those checks |
| `BookStore.Store.AcceptWager` | internal/bettingpg/accept.go:58-177 | in place: stake to escrow and the row accepted, a verified replay, or the refusal and no table changed |
| `BookStore.Store.RejectWager` | internal/bettingpg/accept.go:240-287 | in place: a pending row rejected with its reason, a replay for the same reason, or the refusal and no table changed |
| `BookStore.Store.ReduceWager` | internal/bettingpg/reducewager.go:37-146 | in place: the refund posted and stake and profit reduced together, a replay by key, or the refusal and no table changed |
| `BookStore.Store.VoidWager` | internal/bettingpg/voidwager.go:23-99 | in place: the whole stake refunded and the row voided, a replay, or the refusal and no table changed |
| `BookStore.Store.PlaceParlay` | internal/betting/parlay.go:73-189 | the leg loop and its checks, then the parlay row, or no change |
| `BookStore.Store.AcceptParlay` | internal/bettingpg/parlay.go:194-313 | in place: stake to escrow unless a leg's market is decided, as counted then or earlier, or funds are short, a replay, or the refusal and no table changed |
| `BookStore.Store.SettleWith` | internal/bettingpg/market.go:148-382 | the whole settlement transaction on a working copy: it commits exactly the specified book or nothing |
| `BookStore.Store.SettleMarket` | internal/bettingpg/market.go:131-134 | a first grading, recorded in the store's history |
| `BookStore.Store.VoidMarket` | internal/bettingpg/market.go:139-142 | a void, recorded in the store's history |
| `BookStore.Store.RegradeStrandedWagers` | internal/bettingpg/regrade.go:79-114 | counts the stranded wagers, reads the record and its divisor back and settles again with them |
| `BookStore.Store.CloseMarketWithoutAction` | internal/bettingpg/noaction.go:37-108 | closes only a non-match market with no live wager |
| `BookStore.Store.RecordSettlement` | internal/bettingpg/adjust.go:69-135 | in place: one balanced transaction for a new adjustment, nothing for a repeated one, or the refusal and no change |
| `BookStore.Store.ReverseSettlement` | internal/bettingpg/adjust.go:141-182 | in place: the exact inverse postings, once, or the refusal and no change |
| `AcceptRace.NoWagerIsStranded` | internal/bettingpg/accept.go:65-94 | no interleaving of reads, locks, inserts and commits ends with a wager accepted on a settled or voided market |
| `AcceptRace.LiveWithoutActionIsLate` | internal/bettingpg/noaction.go:57-108 | a pending or accepted wager on a market closed without action was inserted after that closure |
| `AcceptRace.LateWagerCanBeAccepted` | internal/bettingpg/accept.go:91-94 | from any interleaving that leaves one pending it can be accepted |
| `AcceptRace.LatePlacementIsReachable` | internal/bettingpg/place.go:45 | an interleaving that ends with one accepted |
| `ParlayRace.PaidOnceWhenOver` | internal/bettingpg/parlay.go:413-525 | however its legs' settlements and its acceptance interleave, a parlay is paid once exactly when it has ended, and none that is over is left waiting |
| `ParlayRace.AbortsExactly` | internal/bettingpg/parlay.go:487-505 | a settlement that has read the parlay's legs is refused exactly when another has ended the parlay since it marked its leg, which was by a loss |
| `ParlayRace.RetryCommits` | internal/bettingpg/parlay.go:357-364 | sent again it no longer finds the parlay and commits without paying it |
| `ParlayRace.StrandsExactly` | internal/bettingpg/parlay.go:222-236 | a leg is left open on a decided market by exactly two steps: an acceptance that commits though the market was decided since it counted, and a settlement that commits though the parlay was accepted since its query |
| `ParlayRace.StrandingIsReachable` | internal/bettingpg/market.go:366-372 | an interleaving that strands any leg of any parlay, whatever the grade |
| `ParlayRace.StrandedUntilALoss` | internal/bettingpg/parlay.go:419-444 | whatever follows, a stranded parlay is still held or another leg lost |
| `ParlayRace.WithoutOverlapNothingIsStranded` | internal/bettingpg/parlay.go:222-236 | when no settlement of its markets runs beside an acceptance, no leg is ever stranded |
| `LockOrder.OrderedNeverDeadlocks` | internal/bettingpg/store.go:267-299 | transactions whose new rows come in one order, market, selections, wagers, parlay, member, escrow, house, never deadlock, however many and however scheduled |
| `LockOrder.TwoDeadlockExactly` | internal/bettingpg/store.go:267-299 | two transactions with shared and exclusive locks have a schedule that deadlocks exactly when both want rows in common and do not start with the same one |
| `LockPlans.PlansInOrder` | internal/bettingpg/accept.go:65-112 | acceptances, reductions, voids, settle-ups and repricings lock in that order |
| `LockPlans.AcceptanceDeadlocksExactly` | internal/bettingpg/accept.go:96-112 | a settlement deadlocks with an acceptance elsewhere exactly when it pays the accepting member, but somebody else first |
| `LockPlans.SettlementDeadlocksExactly` | internal/bettingpg/market.go:221-243 | some acceptance elsewhere deadlocks with a settlement exactly when its wagers' and parlays' funding accounts are not all the same |
| `LockPlans.RepricingDeadlocksExactly` | internal/bettingpg/reprice.go:40-72 | automatic and hand-set repricing deadlock with exactly the placements on the market's own sides |
| `LockPlans.GradingDeadlocksExactly` | internal/bettingpg/market.go:305-319 | grading deadlocks with exactly the placements on the sides it writes outcomes for; a void with none |
| `LockPlans.ParlayPlacementNeverDeadlocks` | internal/bettingpg/parlay.go:158-167 | a parlay's placement, with one leg a market, never deadlocks with a repricing |
| `LockPlans.SettlementsDeadlockExactly` | internal/bettingpg/parlay.go:396-406 | two settlements that each want the other's first row, a member's account or a parlay, deadlock exactly when those differ |
| `LockPlans.SameFirstFunderNeverDeadlocks` | internal/bettingpg/market.go:221-243 | settlements that first pay the same member never deadlock, whatever parlays they visit |
| `LockPlans.SharedParlayCanDeadlock` | internal/bettingpg/parlay.go:413-464 | a settlement that pays a wager first and one that first visits a shared parlay can deadlock though one member funds everything |
| `LockPlans.VisitOrdersDeadlockExactly` | internal/bettingpg/parlay.go:396-406 | settlements that pay nothing have visiting orders that deadlock exactly when they share two parlays |
| `CapRace.SideCapsHold` | internal/bettingpg/place.go:147-195 | no interleaving of placements takes a member past a side's cap on members or the book past its cap on everybody |
| `CapRace.MarketCapHoldsExactly` | internal/bettingpg/place.go:147-176 | the member's cap on the whole market survives every interleaving exactly when the room on its sides adds up to at most the cap |
| `CapRace.MarketTotalReached` | internal/bettingpg/place.go:156-176 | placements on all sides at once put a member at the sum of the sides' room, and none can get further |
| `CapRace.MarketCapCanBeDoubled` | internal/betting/place.go:122-127 | two sides without caps of their own take a member to twice the market's cap |
| `Dashboard.DashboardIdentity` | internal/privatepg/bookpulse.go:311-366 | members' betting results, the house's result and escrow sum to zero in every reachable single-currency book |
| `Dashboard.SettleUpsAreNoResult` | internal/betting/adjust.go:66-133 | recording or reversing a settle-up changes none of the three |
| `Dashboard.RecordingShifts` | internal/betting/adjust.go:73-133 | a new settle-up moves its amount between the member and the house and nothing else |
| `Dashboard.ReversedExactlyOnce` | internal/bettingpg/adjust.go:141-182 | a reversal commits exactly when the settle-up is recorded and not yet reversed |
| `Dashboard.ReversalRestores` | internal/betting/adjust.go:156-195 | a reversal takes back exactly what was moved, and straight after restores every balance |
| `SettleUp.FormatParses` | internal/bettingweb/bettingweb.go:1440-1467 | parsing undoes formatting exactly on 1 to 999,999,999 cents |
| `SettleUp.ParsedIsInRange` | internal/bettingweb/bettingweb.go:1440-1467 | every accepted text is an amount in that range, and formatting the amount gives a text for the same amount |
| `SettleUp.ParsesExactly` | internal/bettingweb/bettingweb.go:1440-1467 | a text of one to seven digits and at most two decimals is that many cents, and zero is refused |
| `SettleUp.OnlyAmountsParse` | internal/bettingweb/bettingweb.go:1440-1467 | no other text is accepted |
| `SettleUp.SettleUpViews` | internal/bettingweb/settleup.go:46-62 | one view per balance, with its direction and amount |
| `SettleUp.SuggestionClearsTheBalance` | internal/bettingweb/settleup.go:46-62 | submitting the suggestion as shown brings the member's balance to exactly zero |
| `SettleUp.SuggestionIsAccepted` | internal/bettingweb/settleup.go:46-62 | the suggestion is accepted exactly for balances the form can hold |
| `SettleUp.CompareIsByProfit` | internal/bettingweb/bettingweb.go:385-409 | a line reported as better pays at least as much at every stake, and the two directions mirror each other |
| `Text.TrimIsExact` | internal/competition/match.go:377 | trimming takes off exactly the white space at both ends |
| `Exposure.MarketSwing` | internal/privatepg/bookpulse.go:97-111 | the least and greatest net, both attained |
| `Exposure.ReadRows` | internal/privatepg/bookpulse.go:139-178 | the reading loop gives each market one entry with its rows in order and their totals |
| `Exposure.ExposureRows` | internal/privatepg/bookpulse.go:139-208 | every outcome's net is stake less payout, and the first least one is marked exactly when nets differ |
| `Forecast.SoleWinnerMovesTheHouse` | internal/betting/settle.go:436-478 | settling the market's wagers with one winner moves the house by the board's net for it |
| `Forecast.ForecastIsExact` | internal/privatepg/bookpulse.go:182-191 | on every reachable book, grading a sole winner of a market in the book's currency changes the house balance by exactly that outcome's net, plus only the rows of parlays that waited on the market |
| `Forecast.ForecastWithoutParlays` | internal/privatepg/bookpulse.go:182-191 | when no parlay waits on the market the change is exactly the outcome's net |
| `Forecast.ForeignBoardIsEmpty` | internal/privatepg/bookpulse.go:337-339 | on every reachable book the board shows nothing on a market of another currency |
| `MatchAggregate.NewMatch` | internal/competition/match.go:105-148 | refuses exactly the invalid specifications and otherwise starts empty |
| `MatchAggregate.Aggregate.SubmitResult` | internal/competition/match.go:194-268 | in place: a pending first submission, a dispute by the other side's different one, a silent replay, or the refusal and no change |
| `MatchAggregate.Aggregate.ConfirmResult` | internal/competition/match.go:270-320 | in place: the opponent's confirmation and version one, a silent replay, or the refusal and no change |
| `MatchAggregate.Aggregate.DisputeResult` | internal/competition/match.go:322-371 | in place: the opponent's objection and a contested submission, a silent replay, or the refusal and no change |
| `MatchAggregate.Aggregate.AdminOverride` | internal/competition/match.go:373-418 | in place: every pending submission superseded and version one, a silent replay, or the refusal and no change |
| `MatchAggregate.Aggregate.CorrectResult` | internal/competition/match.go:420-465 | in place: the next version superseding the last, a silent replay, or the refusal and no change |
| `Match.StateIsExact` | internal/competition/match.go:194-465 | awaiting confirmation exactly when the only submission is pending, verified exactly when there is a result |
| `MatchAnswers.FirstSubmissionExactly` | internal/competition/match.go:194-237 | a first submission commits exactly when complete, with a score, from a side or an administrator |
| `MatchAnswers.FirstSubmissionRecorded` | internal/competition/match.go:239-268 | what is recorded and announced is the command's score, user, side and time |
| `MatchAnswers.SecondSubmissionExactly` | internal/competition/match.go:217-237 | a second commits exactly from the other side, under a new ID and with another score |
| `MatchAnswers.SecondSubmissionRecorded` | internal/competition/match.go:239-268 | both are contested, and the second recorded is the command's |
| `MatchAnswers.ConfirmationRecorded` | internal/competition/match.go:270-320 | the verified result is the pending submission's score, by the confirming user, as version one |
| `MatchAnswers.DisputeExactly` | internal/competition/match.go:322-355 | a dispute commits exactly when complete, with a reason, from somebody else of the other side |
| `MatchAnswers.DisputeRecorded` | internal/competition/match.go:357-371 | the objection recorded and announced is the command's |
| `MatchAnswers.OverrideExactly` | internal/competition/match.go:373-396 | an override commits exactly for an administrator's complete command on a match not yet verified |
| `MatchAnswers.OverrideRecorded` | internal/competition/match.go:397-418 | the command's own score, user, trimmed reason and time are recorded and announced; pending submissions are superseded |
| `MatchAnswers.CorrectExactly` | internal/competition/match.go:420-446 | a correction commits exactly on a verified match, for another score than the last |
| `MatchAnswers.CorrectRecorded` | internal/competition/match.go:447-465 | the command's own score, user, trimmed reason and time become the next version, which supersedes the last |
| `MatchAnswers.RepeatsExactly` | internal/competition/match.go:549-561 | a used command ID is answered silently exactly for a repeat of its command |
| `MatchAnswers.RulingsStand` | internal/competition/match.go:373-465 | after any sequence, a committed ruling is the last result and the last announcement, as the command said |
| `Match.VersionsFormAChain` | internal/competition/match.go:420-465 | versions run 1..n, each superseding the one before with a different result |
| `Match.OpponentVerifiedByTheOtherSide` | internal/competition/match.go:270-320 | an opponent-verified result was confirmed by another user for the other side |
| `Match.ConfirmCommitsExactly` | internal/competition/match.go:270-320 | a first confirmation commits exactly when its command is well formed, names the pending submission and its actor is another user for another side |
| `Match.ConfirmableExactly` | internal/competition/match.go:270-320 | some confirmation commits exactly when the submission has a side and somebody else can act for a different one |
| `Match.EventsMatchResults` | internal/competition/match.go:302-319 | the verification events are one Verified then Corrected events carrying the same chain |
| `Match.HistoryIsAppendOnly` | internal/competition/match.go:447-465 | results, confirmations, commands and events are append-only and submissions keep their terms |
| `Match.ExecutedCommandsReplay` | internal/competition/match.go:549-565 | an executed command sent again at any later point changes and emits nothing, and its ID with another fingerprint is refused |
| `Match.UnattributedSubmissionNeedsOverride` | internal/competition/match.go:224-237 | a submission from neither side cannot be confirmed or disputed by anyone: only an override commits |
| `Match.FirstSubmissionAttributed` | internal/competition/match.go:224-237 | a first submission is recorded for a side exactly when its actor can act for one |
| `Match.OutsiderLeavesItUnattributed` | internal/competition/match.go:224-237 | any first valid submission by an administrator on neither side ends there |
| `Outbox.CompletedWasHandledByAll` | internal/events/dispatcher.go:196-233 | under any interleaving a completed event has a receipt from every consumer of its type |
| `Outbox.AttemptsAreBounded` | internal/eventspg/store.go:71-198 | attempts never exceed the maximum plus the stale releases, and a failed event has used up its attempts |
| `Outbox.OutcomesAreFinal` | internal/events/state.go:26-41 | completed and failed rows never change again and receipts are never lost |
| `OutboxStore.Store.ClaimBatch` | internal/eventspg/store.go:71-119 | claims distinct due rows no later by availability, occurrence and ID than any due unlocked row left behind, up to the limit, and takes up exactly those as they stood with one more attempt, in no promised order |
| `OutboxStore.Store.ReleaseStale` | internal/eventspg/store.go:182-198 | returns exactly the processing rows locked before the cutoff, as pending and due, and counts them |
| `OutboxStore.Dispatcher.ProcessEvent` | internal/events/dispatcher.go:196-246 | completes the event exactly when every consumer passes it, otherwise retries or fails it by its attempt, and keeps the receipts of the consumers already passed |
| `OutboxStore.DelayIsDocumentedExactly` | internal/events/dispatcher.go:248-271 | the delay doubles up to the cap exactly when its shift is harmless |
| `OutboxStore.ShippedDelaysAreDocumented` | internal/events/dispatcher.go:248-271 | with the shipped settings the delay of each of the twenty attempts is the documented one |
| `OutboxStore.JitterStaysInRange` | internal/events/dispatcher.go:248-271 | every delay is between half the delay and the delay |
| `OutboxStore.JitterReachesAll` | internal/events/dispatcher.go:266-271 | every whole delay in that range can be drawn |
| `OutboxStore.DelayCanWrap` | internal/events/dispatcher.go:257-264 | a setting whose shift wraps to a delay under the documented one |

## Left out

- Floating point: probabilities are exact reals and the exponential is any positive monotone function that is one at zero, so rounding error is not modelled.
- `BookStore.Store.PlaceWager`: takes the verdict of the restriction, time, cap and ceiling checks from its caller; `Placement` says what it is and `CapRace` what the caps are worth between concurrent placements. A replay meets the caps again before its idempotent insert, so it is not claimed to return the stored wager.
- `BookStore.Store.PlaceParlay`: takes the verdict of the restriction and time checks on each leg from its caller.
- `CapRace.MarketCapHoldsExactly`: takes caps that do not change while wagers ride, and stakes that the other checks admit; sums of stakes are not wrapped at 64 bits, which the forms' seven digits of dollars keep away.
- Credit limits are an argument of each acceptance; the debit of a concurrent payout against them is not modelled.
- Wagers and parlays are looked up by numeric ID; UUID, slug, reason and title validation, user existence and audit rows are left out.
- Account balances are unbounded sums; the database's int64 sum overflow is not modelled.
- In the book's runs a line move is one operation that sets any valid line; `LineStore` says which line it is, from accepted stakes that it takes as given.
- The branch that finds a settlement already inserted under a fresh version cannot be reached behind the market's lock and is left out.
- Creating and opening markets, moving lines, and a member's withdrawal of a pending wager or parlay are operations of the table model only, with no method of the store object.
- Void and settlement of free-play stakes post to the same kind of account as cash; funding rules beyond that are left out.
- `BookRuns.AcceptedWagersAreUndecided`: excludes acceptance as it was before it checked the market, which left wagers on settled markets.
- `AcceptRace` covers the single wagers of one market; `ParlayRace` follows one parlay, and a regrade is not among its settlements, because with the market check there is nothing to regrade.
- `LockPlans.SettlementDeadlocksExactly`: the key shares that ledger postings take on accounts are left out: their transactions hold those rows already, except a settle-up's reversal, which takes only two such shares and waits for nobody it bars. The same goes for rows that every plan only shares, such as users.
- `Dashboard.DashboardIdentity`: needs a single-currency book, because the member results are summed across currencies.
- Match fingerprints are compared field by field, not as joined text, so a separator inside a field is not modelled; the mutex makes each command atomic.
- Claims of one batch are taken one row at a time in the interleaving model; the order in which a worker goes through its batch is not fixed there.
- White space is ASCII; Unicode trimming is not modelled.
- HTTP, templates, sessions, identity, rosters, migrations and the public site.
