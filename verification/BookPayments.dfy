/** History only grows, and every settlement on the ledger paid exactly what
    the recorded outcome of its version owes. */
module BookPayments {
  import opened Results
  import opened Ledger
  import opened Wagers
  import opened Settlement
  import opened Parlays
  import opened BookState
  import opened BookInvariant
  import opened BookSettlement
  import opened BookChanges
  import opened BookHistory

  // ---- History grows ------------------------------------------------------------------

  predicate MarketGrows(m: Market, next: Market) {
    SameSelections(m, next) && (IsDecided(m.state) ==> next.state == m.state)
  }

  predicate WagerGrows(w: Wager, next: Wager) {
    && next == w.(stake := Money(next.stake.cents, w.stake.currency), potentialProfit := next.potentialProfit,
                  state := next.state, reason := next.reason)
    && (IsTerminal(w.state) || w.state == Rejected ==> next == w)
    && (next.state == Pending ==> next == w)
  }

  predicate LegGrows(leg: Leg, next: Leg) {
    if leg.result.Some? then next == leg else next == leg.(result := next.result)
  }

  predicate ParlayGrows(p: Parlay, next: Parlay) {
    && next == p.(state := next.state, legs := next.legs)
    && |next.legs| == |p.legs| && (forall i :: 0 <= i < |p.legs| ==> LegGrows(p.legs[i], next.legs[i]))
    && (IsTerminal(p.state) || p.state == Rejected ==> next == p)
  }

  /** Nothing on the ledger, no settlement version and no final row is ever
      changed, and rows keep their terms. */
  ghost predicate Grows(b: Book, after: Book) {
    && b.log <= after.log
    && (forall id :: id in b.markets ==> id in after.markets && MarketGrows(b.markets[id], after.markets[id]))
    && (forall id :: id in b.wagers ==> id in after.wagers && WagerGrows(b.wagers[id], after.wagers[id]))
    && (forall id :: id in b.parlays ==> id in after.parlays && ParlayGrows(b.parlays[id], after.parlays[id]))
    && (forall id :: RecordsGrow(Records(b, id), Records(after, id)))
  }

  predicate RecordsGrow(records: seq<Record>, next: seq<Record>) {
    records <= next
  }

  lemma GrowsTwice(a: Book, b: Book, c: Book)
    requires Grows(a, b) && Grows(b, c)
    ensures Grows(a, c)
  {
    forall id | id in a.markets ensures id in c.markets && MarketGrows(a.markets[id], c.markets[id]) {
      assert MarketGrows(a.markets[id], b.markets[id]);
    }
    forall id | id in a.wagers ensures id in c.wagers && WagerGrows(a.wagers[id], c.wagers[id]) {
      assert WagerGrows(a.wagers[id], b.wagers[id]);
    }
    forall id | id in a.parlays ensures id in c.parlays && ParlayGrows(a.parlays[id], c.parlays[id]) {
      ParlayGrowsTwice(a.parlays[id], b.parlays[id], c.parlays[id]);
    }
    forall id ensures RecordsGrow(Records(a, id), Records(c, id)) {
      assert RecordsGrow(Records(a, id), Records(b, id));
    }
  }

  lemma ParlayGrowsTwice(a: Parlay, b: Parlay, c: Parlay)
    requires ParlayGrows(a, b) && ParlayGrows(b, c)
    ensures ParlayGrows(a, c)
  {
    forall i | 0 <= i < |a.legs| ensures LegGrows(a.legs[i], c.legs[i]) {
      assert LegGrows(a.legs[i], b.legs[i]) && LegGrows(b.legs[i], c.legs[i]);
    }
  }

  lemma SettledWagersGrow(b: Book, market: Id, ss: seq<WagerSettlement>, after: Book)
    requires SettlesMarket(b.wagers, market, ss) && IsSettledTable(b.wagers, ss, after.wagers)
    ensures forall id :: id in b.wagers ==> id in after.wagers && WagerGrows(b.wagers[id], after.wagers[id])
  {
    forall id | id in b.wagers ensures id in after.wagers && WagerGrows(b.wagers[id], after.wagers[id]) {
      SettledRow(b.wagers, market, ss, after.wagers, id);
    }
  }

  lemma SettledParlaysGrow(b: Book, market: Id, outcome: Option<map<Id, Grade>>, after: Book)
    requires ParlaysSettled(b.parlays, market, outcome, after.parlays)
    ensures forall id :: id in b.parlays ==> id in after.parlays && ParlayGrows(b.parlays[id], after.parlays[id])
  {
    forall id | id in b.parlays ensures id in after.parlays && ParlayGrows(b.parlays[id], after.parlays[id]) {
      assert IsNextParlay(b.parlays[id], market, outcome, after.parlays[id]);
    }
  }

  lemma SettledRowsGrow(b: Book, after: Book)
    requires Settles(b, after)
    ensures b.log <= after.log
    ensures forall id :: id in b.wagers ==> id in after.wagers && WagerGrows(b.wagers[id], after.wagers[id])
    ensures forall id :: id in b.parlays ==> id in after.parlays && ParlayGrows(b.parlays[id], after.parlays[id])
  {
    var market, outcome, divisor, ss, posted :| SettleChange(b, market, outcome, divisor, ss, posted, after);
    SettledWagersGrow(b, market, ss, after);
    SettledParlaysGrow(b, market, outcome, after);
  }

  lemma SettleGrows(b: Book, after: Book)
    requires Settles(b, after)
    ensures Grows(b, after)
  {
    SettledRowsGrow(b, after);
    SettledTablesGrow(b, after);
  }

  lemma SettledTablesGrow(b: Book, after: Book)
    requires Settles(b, after)
    ensures forall id :: id in b.markets ==> id in after.markets && MarketGrows(b.markets[id], after.markets[id])
    ensures forall id :: RecordsGrow(Records(b, id), Records(after, id))
  {
    var market, outcome, divisor, ss, posted :| SettleChange(b, market, outcome, divisor, ss, posted, after);
    forall id ensures RecordsGrow(Records(b, id), Records(after, id)) {
      assert id != market ==> Records(after, id) == Records(b, id);
    }
  }

  lemma ParlayRowGrows(b: Book, id: Id, how: Check, after: Book)
    requires ParlayChange(b, id, how, after)
    ensures Grows(b, after)
  {
  }

  lemma WagerRowGrows(b: Book, id: Id, how: Check, after: Book)
    requires WagerChange(b, id, how, after)
    ensures Grows(b, after)
  {
  }

  lemma MarketRowGrows(b: Book, id: Id, after: Book)
    requires MarketChange(b, id, after)
    ensures Grows(b, after)
  {
  }

  lemma RowChangeGrows(b: Book, how: Check, after: Book)
    requires Change(b, how, after) && !Settles(b, after)
    ensures Grows(b, after)
  {
    if id :| MarketChange(b, id, after) {
      MarketRowGrows(b, id, after);
    } else if id :| WagerChange(b, id, how, after) {
      WagerRowGrows(b, id, how, after);
    } else if id :| ParlayChange(b, id, how, after) {
      ParlayRowGrows(b, id, how, after);
    } else {
      LogGrows(b, after);
    }
  }

  lemma LogGrows(b: Book, after: Book)
    requires after == b || CashChange(b, after)
    ensures Grows(b, after)
  {
  }

  lemma ChangeGrows(b: Book, how: Check, after: Book)
    requires Change(b, how, after)
    ensures Grows(b, after)
  {
    if Settles(b, after) {
      SettleGrows(b, after);
    } else {
      RowChangeGrows(b, how, after);
    }
  }

  // ---- Wagers are paid as recorded ----------------------------------------------------------

  /** A settlement on the ledger is what its version's record owes its wager. */
  predicate PaidAsRecorded(b: Book, t: Txn) {
    t.key.WagerSettle? ==>
      && t.key.wager in b.wagers && IsTerminal(b.wagers[t.key.wager].state)
      && PaysWager(b.wagers[t.key.wager], Records(b, b.wagers[t.key.wager].market), t)
  }

  predicate PaysWager(w: Wager, records: seq<Record>, t: Txn)
    requires t.key.WagerSettle?
  {
    && 1 <= t.key.version <= |records|
    && match Owed(w, records[t.key.version - 1])
       case Ok(s) => t == SettleTxn(s, t.key.version)
       case Err(_) => false
  }

  lemma PaidStays(b: Book, after: Book, t: Txn)
    requires PaidAsRecorded(b, t) && Grows(b, after)
    ensures PaidAsRecorded(after, t)
  {
    if t.key.WagerSettle? {
      var w := b.wagers[t.key.wager];
      assert WagerGrows(w, after.wagers[t.key.wager]);
      assert RecordsGrow(Records(b, w.market), Records(after, w.market));
    }
  }

  lemma PaidOne(b: Book, market: Id, record: Record, s: WagerSettlement, after: Book)
    requires SettlesOn(b.wagers, market, s) && MovedOn(b.wagers, s, after.wagers) && OwedBy(b.wagers, record, s)
    requires Records(after, market) == Records(b, market) + [record]
    ensures PaidAsRecorded(after, SettleTxn(s, |Records(b, market)| + 1))
  {
    var w, next := b.wagers[s.wager], after.wagers[s.wager];
    assert next.(state := Accepted) == w.(state := Accepted);
    assert Records(after, market)[|Records(b, market)|] == record;
  }

  // ---- Parlays are paid as their legs grade ----------------------------------------------------

  predicate ParlayPaidAsGraded(b: Book, t: Txn) {
    t.key.ParlaySettle? ==>
      t.key.parlay in b.parlays && b.parlays[t.key.parlay].state == Graded && PaysParlay(b.parlays[t.key.parlay], t)
  }

  lemma ParlayPaidStays(b: Book, after: Book, t: Txn)
    requires ParlayPaidAsGraded(b, t) && Grows(b, after)
    ensures ParlayPaidAsGraded(after, t)
  {
    if t.key.ParlaySettle? {
      assert ParlayGrows(b.parlays[t.key.parlay], after.parlays[t.key.parlay]);
    }
  }

  lemma GradeIgnoresState(p: Parlay)
    ensures GradeParlay(p.(state := Graded), DEFAULT_JUICE) == GradeParlay(p, DEFAULT_JUICE)
  {
    var scan := ScanLegs(p.legs);
    if scan.Surviving? && scan.odds != [] {
      assert GradeAt(p.(state := Graded), SurvivingPrice(scan.odds, DEFAULT_JUICE)) == GradeAt(p, SurvivingPrice(scan.odds, DEFAULT_JUICE));
    }
  }

  lemma DecideIgnoresState(p: Parlay)
    ensures Decide(p.(state := Graded), DEFAULT_JUICE) == Decide(p, DEFAULT_JUICE)
  {
    GradeIgnoresState(p);
    GradeIgnoresState(p.(legs := Filled(p.legs)));
  }

  lemma PaymentIgnoresState(p: Parlay, t: Txn)
    requires PaysParlay(p, t)
    ensures PaysParlay(p.(state := Graded), t) && Decide(p, DEFAULT_JUICE).Some?
  {
    DecideIgnoresState(p);
    var outcome := Decide(p, DEFAULT_JUICE).value.value;
    assert ParlayPostings(p.(state := Graded), outcome) == ParlayPostings(p, outcome);
  }

  lemma VisitPays(parlays: map<Id, Parlay>, market: Id, outcome: Option<map<Id, Grade>>, after: Book, t: Txn)
    requires PaysAffected(parlays, market, outcome, t) && after.parlays.Keys == parlays.Keys
    requires IsNextParlay(parlays[t.key.parlay], market, outcome, after.parlays[t.key.parlay])
    ensures ParlayPaidAsGraded(after, t)
  {
    PaymentIgnoresState(MarkedParlay(parlays[t.key.parlay], market, outcome), t);
  }

  // ---- Every payment on the ledger ---------------------------------------------------------------

  /** A void gave the wager its whole final stake back. */
  predicate VoidPaid(b: Book, t: Txn) {
    t.key.WagerVoid? ==>
      t.key.wager in b.wagers && b.wagers[t.key.wager].state == Refunded && t == VoidTxn(b.wagers[t.key.wager])
  }

  lemma VoidStays(b: Book, after: Book, t: Txn)
    requires VoidPaid(b, t) && Grows(b, after)
    ensures VoidPaid(after, t)
  {
    if t.key.WagerVoid? {
      assert WagerGrows(b.wagers[t.key.wager], after.wagers[t.key.wager]);
    }
  }

  ghost predicate Paid(b: Book, t: Txn) {
    PaidAsRecorded(b, t) && ParlayPaidAsGraded(b, t) && VoidPaid(b, t) && KindMatches(t) && IsAdjustment(t)
  }

  ghost predicate PaymentsSound(b: Book) {
    forall i :: 0 <= i < |b.log| ==> Paid(b, b.log[i])
  }

  lemma OldPaymentsStay(b: Book, after: Book, i: nat)
    requires PaymentsSound(b) && Grows(b, after) && i < |b.log|
    ensures Paid(after, after.log[i])
  {
    assert Paid(b, b.log[i]);
    PaidStays(b, after, b.log[i]);
    ParlayPaidStays(b, after, b.log[i]);
    VoidStays(b, after, b.log[i]);
  }

  ghost predicate AllPaid(b: Book, ts: seq<Txn>) {
    forall k :: 0 <= k < |ts| ==> Paid(b, ts[k])
  }

  lemma PaidRow(b: Book, market: Id, outcome: Option<map<Id, Grade>>, record: Record, ss: seq<WagerSettlement>,
                after: Book, k: nat, t: Txn)
    requires IsSettlementRow(b, market, outcome, ss, k, t)
    requires k < |ss| ==>
      SettlesOn(b.wagers, market, ss[k]) && MovedOn(b.wagers, ss[k], after.wagers) && OwedBy(b.wagers, record, ss[k])
    requires Records(after, market) == Records(b, market) + [record]
    requires ParlaysSettled(b.parlays, market, outcome, after.parlays)
    ensures Paid(after, t)
  {
    if k < |ss| {
      PaidOne(b, market, record, ss[k], after);
    } else {
      VisitPays(b.parlays, market, outcome, after, t);
    }
  }

  lemma SettlementPays(b: Book, after: Book) returns (paid: seq<Txn>)
    requires Settles(b, after)
    ensures after.log == b.log + paid && AllPaid(after, paid)
  {
    var market, outcome, divisor, ss, posted :| SettleChange(b, market, outcome, divisor, ss, posted, after);
    var record := MarketRecord(outcome, divisor);
    forall k | 0 <= k < |posted| ensures Paid(after, posted[k]) {
      if k < |ss| {
        assert SettlesOn(b.wagers, market, ss[k]) && MovedOn(b.wagers, ss[k], after.wagers);
        assert OwedBy(b.wagers, record, ss[k]);
      }
      PaidRow(b, market, outcome, record, ss, after, k, posted[k]);
    }
    paid := posted;
  }

  lemma SettleKeepsPayments(b: Book, after: Book)
    requires PaymentsSound(b) && Settles(b, after) && Grows(b, after)
    ensures PaymentsSound(after)
  {
    var paid := SettlementPays(b, after);
    LogIsPaid(b, after, paid);
  }

  lemma LogIsPaid(b: Book, after: Book, paid: seq<Txn>)
    requires PaymentsSound(b) && Grows(b, after)
    requires after.log == b.log + paid && AllPaid(after, paid)
    ensures PaymentsSound(after)
  {
    forall i | 0 <= i < |after.log| ensures Paid(after, after.log[i]) {
      if i < |b.log| {
        OldPaymentsStay(b, after, i);
      } else {
        assert Paid(after, paid[i - |b.log|]);
      }
    }
  }

  lemma OtherKeepsPayments(b: Book, after: Book)
    requires PaymentsSound(b) && Grows(b, after)
    requires PostsOne(b.log, after.log) || CashChange(b, after)
    requires |after.log| > |b.log| ==> VoidPaid(after, after.log[|b.log|])
    ensures PaymentsSound(after)
  {
    forall i | 0 <= i < |after.log| ensures Paid(after, after.log[i]) {
      if i < |b.log| {
        OldPaymentsStay(b, after, i);
      }
    }
  }

  lemma ChangeKeepsPayments(b: Book, how: Check, after: Book)
    requires PaymentsSound(b) && Change(b, how, after)
    ensures PaymentsSound(after)
  {
    ChangeGrows(b, how, after);
    if Settles(b, after) {
      SettleKeepsPayments(b, after);
    } else {
      OtherKeepsPayments(b, after);
    }
  }

  // ---- Parlays keep the price they were struck at ---------------------------------------------------

  predicate PricesSound(b: Book) {
    forall id :: id in b.parlays ==> PricedAsPlaced(b.parlays[id])
  }

  lemma ChangeKeepsPrices(b: Book, how: Check, after: Book)
    requires PricesSound(b) && Change(b, how, after)
    ensures PricesSound(after)
  {
    ChangeGrows(b, how, after);
    forall id | id in after.parlays ensures PricedAsPlaced(after.parlays[id]) {
      if id in b.parlays {
        var p, next := b.parlays[id], after.parlays[id];
        assert ParlayGrows(p, next);
        forall i | 0 <= i < |p.legs| ensures next.legs[i].odds == p.legs[i].odds {
          assert LegGrows(p.legs[i], next.legs[i]);
        }
        ResultsDoNotReprice(p.legs, next.legs);
      } else {
        NewParlay(b, how, after, id);
      }
    }
  }

  lemma SettlesNoNewParlay(b: Book, after: Book)
    requires Settles(b, after)
    ensures after.parlays.Keys == b.parlays.Keys
  {
  }

  lemma NewParlay(b: Book, how: Check, after: Book, id: Id)
    requires Change(b, how, after) && id in after.parlays && id !in b.parlays
    ensures PricedAsPlaced(after.parlays[id])
  {
    if Settles(b, after) {
      SettlesNoNewParlay(b, after);
    }
    if x :| ParlayChange(b, x, how, after) {
      assert x == id;
    }
  }
}
