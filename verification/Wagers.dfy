/** Wager, market and result vocabulary (internal/betting/types.go). */
module Wagers {
  import opened Results
  import opened Ledger

  datatype MarketState = Draft | Open | Closed | SettlementPending | Settled | Voided | Cancelled | NoAction

  /** Nothing on the market will be graded any more. */
  predicate IsDecided(state: MarketState) {
    state == Settled || state == Voided || state == Cancelled || state == NoAction
  }

  datatype WagerState = Pending | Accepted | Rejected | Graded | Refunded

  predicate IsTerminal(state: WagerState) {
    state == Graded || state == Refunded
  }

  datatype Grade = Win | Loss | Push | Void

  datatype Wager = Wager(
    id: Id,
    user: Id,
    market: Id,
    selection: Id,
    funding: Funding,
    stake: Money,
    odds: int,
    potentialProfit: int,
    state: WagerState,
    key: string,
    reason: string)

  predicate ValidStake(stake: Money) {
    0 < stake.cents <= MAX_INT64
  }

  /** Wager.Validate, and the profit snapshot every placed or reduced wager carries. */
  predicate ValidWager(w: Wager) {
    && ValidStake(w.stake)
    && ValidOdds(w.odds)
    && Profit(w.odds, w.stake.cents) == Ok(w.potentialProfit)
  }

  function FundingAccount(w: Wager): Account {
    Member(w.user, w.funding, w.stake.currency)
  }
}
