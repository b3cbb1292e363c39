/** Every store operation keeps the ledger and the tables in agreement. */
module BookSafety {
  import opened Results
  import opened Ledger
  import opened Wagers
  import opened Parlays
  import opened Totals
  import opened BookState
  import opened BookInvariant

  // ---- Shapes ------------------------------------------------------------------------

  lemma ShapesAfterPut(b: Book, w: Wager)
    requires ShapesSound(b) && WagerShape(b.markets, w)
    ensures ShapesSound(Put(b, w))
  {
  }

  lemma ShapesAfterPutParlay(b: Book, p: Parlay)
    requires ShapesSound(b) && ParlayShape(b.markets, p)
    ensures ShapesSound(PutParlay(b, p))
  {
  }

  lemma ParlayShapeKept(before: map<Id, Market>, after: map<Id, Market>, p: Parlay)
    requires ParlayShape(before, p) && KeepsSelections(before, after)
    ensures ParlayShape(after, p)
  {
    forall i | 0 <= i < |p.legs| ensures LegShape(after, p.legs[i]) {
      assert LegShape(before, p.legs[i]);
      assert SameSelections(before[p.legs[i].market], after[p.legs[i].market]);
    }
  }

  lemma ShapesKept(b: Book, markets: map<Id, Market>)
    requires ShapesSound(b) && KeepsSelections(b.markets, markets)
    ensures ShapesSound(b.(markets := markets))
  {
    forall id | id in b.wagers ensures WagerShape(markets, b.wagers[id]) {
      assert WagerShape(b.markets, b.wagers[id]);
      assert SameSelections(b.markets[b.wagers[id].market], markets[b.wagers[id].market]);
    }
    forall id | id in b.parlays ensures ParlayShape(markets, b.parlays[id]) {
      ParlayShapeKept(b.markets, markets, b.parlays[id]);
    }
  }

  /** Operations that only touch markets and settlement records. */
  lemma MarketOperation(b: Book, markets: map<Id, Market>, records: map<Id, seq<Record>>)
    requires Sound(b) && KeepsSelections(b.markets, markets)
    ensures Sound(b.(markets := markets, records := records))
  {
    TablesStep(b, markets, records);
    ShapesKept(b, markets);
    var after := b.(markets := markets, records := records);
    assert after.wagers == b.(markets := markets).wagers && after.parlays == b.(markets := markets).parlays;
  }

  // ---- Single wagers -------------------------------------------------------------------

  /** The five tallies of a wager after one more transaction. */
  lemma TalliesAfter(log: seq<Txn>, t: Txn, id: Id)
    ensures Tally(log + [t], AcceptanceRows(id)) == Tally(log, AcceptanceRows(id)) + AcceptanceRows(id)(t)
    ensures Tally(log + [t], AcceptedCents(id)) == Tally(log, AcceptedCents(id)) + AcceptedCents(id)(t)
    ensures Tally(log + [t], ReducedCents(id)) == Tally(log, ReducedCents(id)) + ReducedCents(id)(t)
    ensures Tally(log + [t], Releases(id)) == Tally(log, Releases(id)) + Releases(id)(t)
    ensures Tally(log + [t], ReleasedCents(id)) == Tally(log, ReleasedCents(id)) + ReleasedCents(id)(t)
  {
    TallyAppend(log, t, AcceptanceRows(id));
    TallyAppend(log, t, AcceptedCents(id));
    TallyAppend(log, t, ReducedCents(id));
    TallyAppend(log, t, Releases(id));
    TallyAppend(log, t, ReleasedCents(id));
  }

  lemma AcceptanceBooks(log: seq<Txn>, w: Wager, t: Txn)
    requires WagerBooks(log, w) && w.state == Pending
    requires t.key == WagerAcceptance(w.id) && |t.postings| == 2 && Positive(t.postings) == w.stake.cents
    ensures WagerBooks(log + [t], w.(state := Accepted))
  {
    TalliesAfter(log, t, w.id);
  }

  lemma AcceptanceKeepsLedger(b: Book, w: Wager)
    requires LedgerSound(b) && w.id in b.wagers && b.wagers[w.id] == w && ValidStake(w.stake) && w.state == Pending
    ensures var t, next := AcceptanceTxn(w), w.(state := Accepted);
      Post(b, t).Ok? && LedgerSound(Put(Post(b, t).value, next))
  {
    var t, next := AcceptanceTxn(w), w.(state := Accepted);
    MoveIsGood(FundingAccount(w), Escrow(w.stake.currency), w.stake);
    NoAcceptanceYet(b.log, w);
    AcceptanceBooks(b.log, w, t);
    WagerStep(b, t, next);
  }

  lemma ReductionBooks(log: seq<Txn>, w: Wager, t: Txn, next: Wager)
    requires WagerBooks(log, w) && w.state == Accepted
    requires t.key.WagerReduction? && t.key.wager == w.id && Positive(t.postings) == w.stake.cents - next.stake.cents
    requires next == w.(stake := next.stake, potentialProfit := next.potentialProfit)
    ensures WagerBooks(log + [t], next)
  {
    TalliesAfter(log, t, w.id);
  }

  lemma ReductionKeepsLedger(b: Book, w: Wager, newStake: int, profit: int)
    requires LedgerSound(b) && w.id in b.wagers && b.wagers[w.id] == w && ValidStake(w.stake) && w.state == Accepted
    requires 0 < newStake < w.stake.cents && !HasKey(b.log, WagerReduction(w.id, newStake))
    ensures var t := ReductionTxn(w, newStake);
      var next := w.(stake := Money(newStake, w.stake.currency), potentialProfit := profit);
      Post(b, t).Ok? && LedgerSound(Put(Post(b, t).value, next))
  {
    var t := ReductionTxn(w, newStake);
    var next := w.(stake := Money(newStake, w.stake.currency), potentialProfit := profit);
    MoveIsGood(Escrow(w.stake.currency), FundingAccount(w), Money(w.stake.cents - newStake, w.stake.currency));
    ReductionBooks(b.log, w, t, next);
    WagerStep(b, t, next);
  }

  /** A release: the whole present stake leaves escrow, once. */
  lemma ReleaseKeepsLedger(b: Book, w: Wager, t: Txn, next: Wager)
    requires LedgerSound(b) && w.id in b.wagers && b.wagers[w.id] == w && w.state == Accepted
    requires GoodTxn(t) && t.currency == w.stake.currency && IsRelease(t.key, w.id)
    requires forall c :: NetTo(t.postings, Escrow(c)) == if c == w.stake.currency then -w.stake.cents else 0
    requires next == w.(state := next.state) && IsTerminal(next.state)
    ensures Post(b, t).Ok? && LedgerSound(Put(Post(b, t).value, next))
  {
    NotReleasedYet(b.log, w);
    TalliesAfter(b.log, t, w.id);
    WagerStep(b, t, next);
  }

  lemma VoidKeepsLedger(b: Book, w: Wager)
    requires LedgerSound(b) && w.id in b.wagers && b.wagers[w.id] == w && ValidStake(w.stake) && w.state == Accepted
    ensures Post(b, VoidTxn(w)).Ok? && LedgerSound(Put(Post(b, VoidTxn(w)).value, w.(state := Refunded)))
  {
    MoveIsGood(Escrow(w.stake.currency), FundingAccount(w), w.stake);
    ReleaseKeepsLedger(b, w, VoidTxn(w), w.(state := Refunded));
  }

  lemma NewWagerBooks(b: Book, w: Wager)
    requires LedgerSound(b) && w.id !in b.wagers && w.state == Pending
    ensures WagerBooks(b.log, w)
  {
    forall i | 0 <= i < |b.log| ensures !AboutWager(b.log[i].key, w.id) {
      assert KeyOwned(b, b.log[i].key);
    }
    TallyZero(b.log, AcceptanceRows(w.id));
    TallyZero(b.log, AcceptedCents(w.id));
    TallyZero(b.log, ReducedCents(w.id));
    TallyZero(b.log, Releases(w.id));
    TallyZero(b.log, ReleasedCents(w.id));
  }

  lemma PlaceIsSafe(b: Book, r: WagerRequest, admitted: bool, earlier: Option<int>)
    requires Sound(b) && PlaceWager(b, r, admitted, earlier).Ok?
    ensures Sound(PlaceWager(b, r, admitted, earlier).value)
  {
    var after := PlaceWager(b, r, admitted, earlier).value;
    if after != b {
      var m := b.markets[r.market];
      var odds := if earlier.Some? then earlier.value else m.lines[r.selection];
      var profit := Profit(odds, r.stake.cents).value;
      var w := Wager(r.id, r.user, r.market, r.selection, r.funding, r.stake, odds, profit, Pending, r.key, "");
      PlacedIsValid(w);
      NewWagerBooks(b, w);
      WagerRow(b, w);
      ShapesAfterPut(b, w);
    }
  }

  lemma PlacedIsValid(w: Wager)
    requires Profit(w.odds, w.stake.cents) == Ok(w.potentialProfit)
    ensures ValidWager(w)
  {
    ProfitIsNearestCent(w.odds, w.stake.cents);
    ProfitFailsExactlyOnOverflow(w.odds, w.stake.cents);
    ProductMonotone(w.stake.cents, 1, PayoutRatio(w.odds).0);
  }

  lemma AcceptIsSafe(b: Book, id: Id, creditLimit: int, unchecked: bool)
    requires Sound(b) && AcceptWager(b, id, creditLimit, unchecked).Ok?
    ensures Sound(AcceptWager(b, id, creditLimit, unchecked).value)
  {
    var w := b.wagers[id];
    assert WagerShape(b.markets, w);
    if w.state == Pending {
      AcceptanceKeepsLedger(b, w);
      ShapesAfterPut(Post(b, AcceptanceTxn(w)).value, w.(state := Accepted));
    }
  }

  lemma RejectIsSafe(b: Book, id: Id, reason: string)
    requires Sound(b) && RejectWager(b, id, reason).Ok?
    ensures Sound(RejectWager(b, id, reason).value)
  {
    var w := b.wagers[id];
    assert WagerShape(b.markets, w);
    if w.state == Pending {
      var next := w.(state := Rejected, reason := reason);
      WagerRow(b, next);
      ShapesAfterPut(b, next);
    }
  }

  lemma ReduceIsSafe(b: Book, id: Id, newStake: int)
    requires Sound(b) && ReduceWager(b, id, newStake).Ok?
    ensures Sound(ReduceWager(b, id, newStake).value)
  {
    var w := b.wagers[id];
    assert WagerShape(b.markets, w);
    if !HasKey(b.log, WagerReduction(id, newStake)) {
      var profit := Profit(w.odds, newStake).value;
      ReductionKeepsLedger(b, w, newStake, profit);
      ShapesAfterPut(Post(b, ReductionTxn(w, newStake)).value,
                     w.(stake := Money(newStake, w.stake.currency), potentialProfit := profit));
    }
  }

  lemma VoidIsSafe(b: Book, id: Id)
    requires Sound(b) && VoidWager(b, id).Ok?
    ensures Sound(VoidWager(b, id).value)
  {
    var w := b.wagers[id];
    assert WagerShape(b.markets, w);
    if w.state == Accepted {
      VoidKeepsLedger(b, w);
      ShapesAfterPut(Post(b, VoidTxn(w)).value, w.(state := Refunded));
    }
  }

  // ---- Parlays ---------------------------------------------------------------------------

  lemma NewParlayBooks(b: Book, p: Parlay)
    requires LedgerSound(b) && p.id !in b.parlays && p.state == Pending
    ensures ParlayBooks(b.log, p)
  {
    forall i | 0 <= i < |b.log| ensures !AboutParlay(b.log[i].key, p.id) {
      assert KeyOwned(b, b.log[i].key);
    }
    TallyZero(b.log, ParlayAcceptances(p.id));
    TallyZero(b.log, ParlaySettlements(p.id));
  }

  lemma {:induction false} LegOddsAreValid(legs: seq<Leg>)
    requires AllValidOdds(LegOdds(legs))
    ensures LegOddsValid(legs)
  {
    if legs == [] {
    } else {
      var init := legs[..|legs| - 1];
      assert LegOdds(legs)[..|init|] == LegOdds(init);
      forall i | 0 <= i < |init| ensures ValidOdds(LegOdds(init)[i]) {
        assert LegOdds(init)[i] == LegOdds(legs)[i];
      }
      LegOddsAreValid(init);
      assert LegOdds(legs)[|init|] == legs[|init|].odds;
    }
  }

  lemma PlacedParlayShape(b: Book, r: ParlayRequest, p: Parlay)
    requires MIN_LEGS <= |r.picks| <= MAX_LEGS && PicksEligible(b, r.picks, r.stake.currency)
    requires p.legs == LegsFor(b, r.picks, r.stake.currency) && p.state == Pending && p.stake == r.stake
    requires ParlayOdds(LegOdds(p.legs), DEFAULT_JUICE) == Ok(p.odds)
    requires Profit(p.odds, p.stake.cents) == Ok(p.potentialProfit)
    ensures ParlayShape(b.markets, p)
  {
    ProfitIsNearestCent(p.odds, p.stake.cents);
    ProfitFailsExactlyOnOverflow(p.odds, p.stake.cents);
    ProductMonotone(p.stake.cents, 1, PayoutRatio(p.odds).0);
    LegOddsAreValid(p.legs);
    forall i | 0 <= i < |p.legs| ensures LegShape(b.markets, p.legs[i]) {
      assert PickEligible(b, r.picks[i], r.stake.currency);
    }
  }

  lemma PlaceParlayIsSafe(b: Book, r: ParlayRequest, admitted: bool, maxPayout: int)
    requires Sound(b) && PlaceParlay(b, r, admitted, maxPayout).Ok?
    ensures Sound(PlaceParlay(b, r, admitted, maxPayout).value)
  {
    var after := PlaceParlay(b, r, admitted, maxPayout).value;
    if after != b {
      var legs := LegsFor(b, r.picks, r.stake.currency);
      var (odds, profit) := PriceParlay(legs, r.stake.cents, DEFAULT_JUICE, maxPayout).value;
      var p := Parlay(r.id, r.user, r.funding, r.stake, odds, profit, legs, Pending, r.key);
      PlacedParlayShape(b, r, p);
      NewParlayBooks(b, p);
      ParlayRow(b, p);
      ShapesAfterPutParlay(b, p);
    }
  }

  lemma ParlayTalliesAfter(log: seq<Txn>, t: Txn, id: Id)
    ensures Tally(log + [t], ParlayAcceptances(id)) == Tally(log, ParlayAcceptances(id)) + ParlayAcceptances(id)(t)
    ensures Tally(log + [t], ParlaySettlements(id)) == Tally(log, ParlaySettlements(id)) + ParlaySettlements(id)(t)
  {
    TallyAppend(log, t, ParlayAcceptances(id));
    TallyAppend(log, t, ParlaySettlements(id));
  }

  lemma ParlayAcceptanceKeepsLedger(b: Book, p: Parlay)
    requires LedgerSound(b) && p.id in b.parlays && b.parlays[p.id] == p && ValidStake(p.stake) && p.state == Pending
    ensures var t, next := ParlayAcceptanceTxn(p), p.(state := Accepted);
      Post(b, t).Ok? && LedgerSound(PutParlay(Post(b, t).value, next))
  {
    var t, next := ParlayAcceptanceTxn(p), p.(state := Accepted);
    MoveIsGood(ParlayAccount(p), Escrow(p.stake.currency), p.stake);
    ParlayKeysAbsent(b.log, p);
    ParlayTalliesAfter(b.log, t, p.id);
    ParlayStep(b, t, next);
  }

  lemma ParlayStateShape(markets: map<Id, Market>, p: Parlay, state: WagerState)
    requires ParlayShape(markets, p) && state != Pending
    ensures ParlayShape(markets, p.(state := state))
  {
  }

  lemma AcceptParlayIsSafe(b: Book, id: Id, creditLimit: int, late: bool)
    requires Sound(b) && AcceptParlay(b, id, creditLimit, late).Ok?
    ensures Sound(AcceptParlay(b, id, creditLimit, late).value)
  {
    var p := b.parlays[id];
    assert ParlayShape(b.markets, p);
    if p.state == Pending {
      ParlayAcceptanceKeepsLedger(b, p);
      ParlayStateShape(b.markets, p, Accepted);
      ShapesAfterPutParlay(Post(b, ParlayAcceptanceTxn(p)).value, p.(state := Accepted));
    }
  }

  lemma RejectParlayIsSafe(b: Book, id: Id)
    requires Sound(b) && RejectParlay(b, id).Ok?
    ensures Sound(RejectParlay(b, id).value)
  {
    var p := b.parlays[id];
    ParlayStateShape(b.markets, p, Rejected);
    ParlayRow(b, p.(state := Rejected));
    ShapesAfterPutParlay(b, p.(state := Rejected));
  }

  // ---- Settle-ups ---------------------------------------------------------------------------

  lemma AdjustmentIsGood(id: Id, user: Id, direction: Direction, amount: Money)
    requires ValidStake(amount)
    ensures GoodTxn(AdjustmentTxn(id, user, direction, amount))
    ensures AvoidsEscrow(AdjustmentTxn(id, user, direction, amount).postings)
    ensures var signed := if direction == PaymentReceived then amount.cents else -amount.cents;
      forall x :: NetTo(AdjustmentTxn(id, user, direction, amount).postings, x)
        == if x == Member(user, Cash, amount.currency) then signed else if x == House(amount.currency) then -signed else 0
  {
    var postings := AdjustmentTxn(id, user, direction, amount).postings;
    TwoPostingsValid(amount.currency, postings[0], postings[1]);
    TwoPostings(postings[0], postings[1]);
  }

  lemma RecordSettlementIsSafe(b: Book, id: Id, user: Id, direction: Direction, amount: Money)
    requires Sound(b) && RecordSettlement(b, id, user, direction, amount).Ok?
    ensures Sound(RecordSettlement(b, id, user, direction, amount).value)
  {
    var after := RecordSettlement(b, id, user, direction, amount).value;
    if after != b {
      var t := AdjustmentTxn(id, user, direction, amount);
      AdjustmentIsGood(id, user, direction, amount);
      CashStep(b, t);
      SameShapes(b, after);
    }
  }

  lemma SameShapes(b: Book, after: Book)
    requires ShapesSound(b) && after.markets == b.markets && after.wagers == b.wagers && after.parlays == b.parlays
    ensures ShapesSound(after)
  {
  }
}
