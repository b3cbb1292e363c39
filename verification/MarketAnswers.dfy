/** What the operations on markets and settle-ups answer (internal/bettingpg:
    create.go, market.go, noaction.go, adjust.go). */
module MarketAnswers {
  import opened Results
  import opened Ledger
  import opened Wagers
  import opened Totals
  import opened BookState
  import opened BookSafety
  import opened WagerAnswers

  predicate HasMarket(b: Book, id: Id, state: MarketState) {
    id in b.markets && b.markets[id].state == state
  }

  /** The market moves to the state, and nothing else changes. */
  predicate MovesTo(b: Book, after: Book, id: Id, state: MarketState) {
    id in b.markets && after == b.(markets := b.markets[id := b.markets[id].(state := state)])
  }

  /** A market is created as a draft exactly under a new ID with valid lines. */
  lemma CreateExactly(b: Book, id: Id, isMatch: bool, currency: Currency, lines: map<Id, int>)
    ensures CreateMarket(b, id, isMatch, currency, lines).Ok? <==>
      id !in b.markets && forall s :: s in lines ==> lines[s] <= -100 || lines[s] >= 100
    ensures CreateMarket(b, id, isMatch, currency, lines).Ok? ==>
      CreateMarket(b, id, isMatch, currency, lines).value == b.(markets := b.markets[id := Market(isMatch, Draft, currency, lines)])
  {
  }

  /** A draft opens, an open market closes, and each is repeated for nothing. */
  lemma OpenAndCloseExactly(b: Book, id: Id)
    ensures OpenMarket(b, id).Ok? <==> HasMarket(b, id, Draft) || HasMarket(b, id, Open)
    ensures OpenMarket(b, id).Ok? ==> MovesTo(b, OpenMarket(b, id).value, id, Open)
    ensures CloseMarket(b, id).Ok? <==> HasMarket(b, id, Open) || HasMarket(b, id, Closed)
    ensures CloseMarket(b, id).Ok? ==> MovesTo(b, CloseMarket(b, id).value, id, Closed)
  {
    if HasMarket(b, id, Open) || HasMarket(b, id, Closed) {
      assert b.markets[id := b.markets[id].(state := b.markets[id].state)] == b.markets;
    }
  }

  /** A market closes without action exactly when it is no match market, has been
      closed and not decided, and no wager on it is pending or accepted. */
  lemma CloseWithoutActionExactly(b: Book, id: Id)
    ensures CloseWithoutAction(b, id).Ok? <==>
      && (HasMarket(b, id, Closed) || HasMarket(b, id, SettlementPending)) && !b.markets[id].isMatch
      && forall w :: w in b.wagers && b.wagers[w].market == id ==> b.wagers[w].state != Pending && b.wagers[w].state != Accepted
    ensures CloseWithoutAction(b, id).Ok? ==> MovesTo(b, CloseWithoutAction(b, id).value, id, NoAction)
  {
  }

  /** A line moves exactly on an offered side of a draft or open market, to valid
      odds, and no other line, row or balance changes. */
  lemma MoveLineExactly(b: Book, market: Id, selection: Id, odds: int)
    ensures MoveLine(b, market, selection, odds).Ok? <==>
      && (HasMarket(b, market, Open) || HasMarket(b, market, Draft)) && selection in b.markets[market].lines
      && (odds <= -100 || odds >= 100)
    ensures MoveLine(b, market, selection, odds).Ok? ==>
      var m := b.markets[market];
      MoveLine(b, market, selection, odds).value == b.(markets := b.markets[market := m.(lines := m.lines[selection := odds])])
  {
  }

  /** A settle-up is recorded exactly for a positive amount within int64, unless it
      is on the ledger already, when it changes nothing; a payment received credits
      the member from the house, a payout the other way. */
  lemma SettleUpExactly(b: Book, id: Id, user: Id, direction: Direction, amount: Money)
    ensures RecordSettlement(b, id, user, direction, amount).Ok? <==> HasKey(b.log, Adjustment(id)) || 0 < amount.cents <= MAX_INT64
    ensures HasKey(b.log, Adjustment(id)) ==> RecordSettlement(b, id, user, direction, amount) == Ok(b)
    ensures !HasKey(b.log, Adjustment(id)) && 0 < amount.cents <= MAX_INT64 ==>
      IsRecorded(b, RecordSettlement(b, id, user, direction, amount).value, id, user, direction, amount)
  {
    if !HasKey(b.log, Adjustment(id)) && 0 < amount.cents <= MAX_INT64 {
      AdjustmentIsGood(id, user, direction, amount);
      var member, house := Member(user, Cash, amount.currency), House(amount.currency);
      var from, to := if direction == PaymentReceived then house else member, if direction == PaymentReceived then member else house;
      RecordingMoves(b, AdjustmentTxn(id, user, direction, amount), from, to, amount.cents);
    }
  }

  ghost predicate IsRecorded(b: Book, after: Book, id: Id, user: Id, direction: Direction, amount: Money) {
    && after == b.(log := after.log) && Posts(b, after, AdminKind, Adjustment(id), amount.currency)
    && var member, house := Member(user, Cash, amount.currency), House(amount.currency);
       if direction == PaymentReceived then Moved(b, after, house, member, amount.cents) else Moved(b, after, member, house, amount.cents)
  }

  lemma RecordingMoves(b: Book, t: Txn, from: Account, to: Account, cents: int)
    requires forall x :: NetTo(t.postings, x) == if x == from then -cents else if x == to then cents else 0
    ensures Moved(b, b.(log := b.log + [t]), from, to, cents)
  {
    var after := b.(log := b.log + [t]);
    forall x ensures Balance(after, x) == Balance(b, x) + if x == from then -cents else if x == to then cents else 0 {
      TallyAppend(b.log, t, To(x));
    }
  }
}
