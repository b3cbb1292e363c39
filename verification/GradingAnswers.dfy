/** What a market's settlement pays and records, in the terms of its outcome
    (internal/betting/settle.go, internal/bettingpg/market.go). */
module GradingAnswers {
  import opened Results
  import opened Ledger
  import opened Wagers
  import opened Settlement
  import opened Parlays
  import opened BookState
  import opened BookInvariant
  import opened BookSettlement
  import opened BookHistory
  import opened BookPayments
  import opened BookRuns

  // ---- Payments ---------------------------------------------------------------------------

  /** What a recorded decision pays a wager: a win the cents that ride and what they
      earn, split as many ways as its side's row says; a loss nothing; a push, a void
      or a voided market the stake. */
  ghost predicate IsPaidUnder(record: Record, w: Wager, paid: int) {
    if !record.graded || w.selection !in record.outcome then paid == w.stake.cents
    else
      match record.outcome[w.selection]
      case Win =>
        w.selection in record.divisors && record.divisors[w.selection] >= 1
        && ReturnsTied(w, record.divisors[w.selection], paid)
      case Loss => paid == 0
      case _ => paid == w.stake.cents
  }

  function KindUnder(record: Record, w: Wager): Kind {
    if !record.graded || w.selection !in record.outcome then RefundKind
    else
      match record.outcome[w.selection]
      case Win => WinKind
      case Loss => LossKind
      case _ => RefundKind
  }

  lemma OwedIsPaid(w: Wager, record: Record, s: WagerSettlement)
    requires ValidWager(w) && Owed(w, record) == Ok(s)
    requires w.selection in record.outcome ==> w.selection in record.divisors && record.divisors[w.selection] >= 1
    ensures IsPaidUnder(record, w, s.returned) && KindOf(s.grade) == KindUnder(record, w)
    ensures NetTo(s.postings, Member(w.user, w.funding, w.stake.currency)) == s.returned
    ensures NetTo(s.postings, Escrow(w.stake.currency)) == -w.stake.cents
    ensures NetTo(s.postings, House(w.stake.currency)) == w.stake.cents - s.returned
  {
    var accepted, grade, divisor := w.(state := Accepted), GradeUnder(record, w.selection), DivisorUnder(record, w.selection);
    SettlementMovesTheStake(accepted, grade, divisor);
    SettlementReturns(accepted, grade, divisor);
    if grade == Win {
      TiedWinReturns(accepted, divisor, divisor);
      var riding :| IsRiding(accepted, divisor, riding, s.returned);
      assert IsRiding(w, divisor, riding, s.returned);
    }
    assert NetTo(s.postings, FundingAccount(w)) == Movement(w, w.stake.cents - s.returned, s.returned, FundingAccount(w));
  }

  lemma DivisorsCover(m: Market, records: seq<Record>, record: Record, selection: Id)
    requires MarketRecords(m, records) && record in records && selection in record.outcome
    ensures selection in record.divisors && record.divisors[selection] >= 1
  {
    if m.state == Settled {
      var declared, divisor :| AppliedAs(records[0], declared, divisor);
      assert record == records[0];
      assert divisor >= 1;
    }
  }

  /** Every wager settlement on the ledger pays the member what a recorded decision
      of the market says, from escrow, and the house keeps the rest. */
  lemma WagerIsPaidByItsGrade(ops: seq<Op>, t: Txn) returns (record: Record)
    requires t in Run(ops).log && t.key.WagerSettle?
    ensures t.key.wager in Run(ops).wagers
    ensures var b, w := Run(ops), Run(ops).wagers[t.key.wager];
      var paid := NetTo(t.postings, Member(w.user, w.funding, w.stake.currency));
      && record in Records(b, w.market) && IsPaidUnder(record, w, paid)
      && NetTo(t.postings, Escrow(w.stake.currency)) == -w.stake.cents
      && NetTo(t.postings, House(w.stake.currency)) == w.stake.cents - paid
      && t.kind == KindUnder(record, w)
  {
    RunIsHealthy(ops);
    record := PaidIn(Run(ops), SlackOf(ops), t);
  }

  lemma PaidIn(b: Book, slack: Slack, t: Txn) returns (record: Record)
    requires Healthy(b, slack) && t in b.log && t.key.WagerSettle?
    ensures t.key.wager in b.wagers
    ensures var w := b.wagers[t.key.wager];
      var paid := NetTo(t.postings, Member(w.user, w.funding, w.stake.currency));
      && record in Records(b, w.market) && IsPaidUnder(record, w, paid)
      && NetTo(t.postings, Escrow(w.stake.currency)) == -w.stake.cents
      && NetTo(t.postings, House(w.stake.currency)) == w.stake.cents - paid
      && t.kind == KindUnder(record, w)
  {
    var s;
    record, s := PaidRecord(b, t);
    var w := b.wagers[t.key.wager];
    SoundWager(b, t.key.wager);
    RecordCovers(b, w, record);
    OwedIsPaid(w, record, s);
  }

  /** The decision a settlement on the ledger was made under. */
  lemma PaidRecord(b: Book, t: Txn) returns (record: Record, s: WagerSettlement)
    requires PaymentsSound(b) && t in b.log && t.key.WagerSettle?
    ensures t.key.wager in b.wagers
    ensures var w := b.wagers[t.key.wager];
      record in Records(b, w.market) && Owed(w, record) == Ok(s) && t == SettleTxn(s, t.key.version)
  {
    var i :| 0 <= i < |b.log| && b.log[i] == t;
    assert Paid(b, b.log[i]);
    record := Records(b, b.wagers[t.key.wager].market)[t.key.version - 1];
    s := Owed(b.wagers[t.key.wager], record).value;
  }

  lemma RecordCovers(b: Book, w: Wager, record: Record)
    requires Sound(b) && RecordsSound(b) && w.id in b.wagers && b.wagers[w.id] == w && record in Records(b, w.market)
    ensures ValidWager(w)
    ensures w.selection in record.outcome ==> w.selection in record.divisors && record.divisors[w.selection] >= 1
  {
    SoundWager(b, w.id);
    if w.selection in record.outcome {
      DivisorsCover(b.markets[w.market], Records(b, w.market), record, w.selection);
    }
  }

  // ---- What is recorded -----------------------------------------------------------------------

  /** A committed grading leaves the market settled with one more version: its
      outcome, and on the winning sides how many ways it was split. */
  lemma GradingIsRecorded(b: Book, market: Id, outcome: map<Id, Grade>, deadHeat: bool, plan: Plan)
    requires Sound(b) && IsPlan(b, market, plan) && SettleWith(b, market, Some(outcome), false, deadHeat, 0, plan).Ok?
    ensures var after := SettleWith(b, market, Some(outcome), false, deadHeat, 0, plan).value;
      && market in b.markets && outcome.Keys == b.markets[market].lines.Keys
      && (b.markets[market].state == Open || b.markets[market].state == Closed || b.markets[market].state == SettlementPending)
      && after.markets == b.markets[market := b.markets[market].(state := Settled)]
      && |Records(after, market)| == |Records(b, market)| + 1 && Records(after, market)[..|Records(b, market)|] == Records(b, market)
      && RecordsOutcome(Records(after, market)[|Records(b, market)|], deadHeat, outcome)
  {
    var divisor, ss, posted := SettleWithSettles(b, market, Some(outcome), false, deadHeat, 0, plan);
  }

  predicate RecordsOutcome(record: Record, deadHeat: bool, outcome: map<Id, Grade>) {
    && record.graded && record.outcome == outcome && record.divisors.Keys == outcome.Keys
    && (deadHeat ==> |WinningSides(outcome)| >= 2)
    && forall s :: s in outcome ==>
         record.divisors[s] == if outcome[s] == Win && deadHeat then |WinningSides(outcome)| else 1
  }

  /** A committed void leaves the market voided, with a version that grades nothing. */
  lemma VoidIsRecorded(b: Book, market: Id, plan: Plan)
    requires Sound(b) && IsPlan(b, market, plan) && SettleWith(b, market, None, false, false, 0, plan).Ok?
    ensures var after := SettleWith(b, market, None, false, false, 0, plan).value;
      && market in b.markets
      && after.markets == b.markets[market := b.markets[market].(state := Voided)]
      && |Records(after, market)| == |Records(b, market)| + 1
      && Records(after, market)[|Records(b, market)|] == Record(false, map[], map[])
  {
    var divisor, ss, posted := SettleWithSettles(b, market, None, false, false, 0, plan);
  }

  /** Afterwards every wager that was accepted on the market is graded, or refunded
      where its side or the market is void, and no other wager has changed. */
  lemma EveryAcceptedWagerIsGraded(b: Book, market: Id, outcome: Option<map<Id, Grade>>, deadHeat: bool, plan: Plan, id: Id)
    requires Sound(b) && IsPlan(b, market, plan) && id in b.wagers
    requires SettleWith(b, market, outcome, false, deadHeat, 0, plan).Ok?
    ensures var after := SettleWith(b, market, outcome, false, deadHeat, 0, plan).value;
      id in after.wagers && IsGradedRow(b.wagers[id], market, outcome, after.wagers[id])
  {
    var divisor, ss, posted := SettleWithSettles(b, market, outcome, false, deadHeat, 0, plan);
    SoundWager(b, id);
    GradedRow(b, market, outcome, divisor, ss, SettleWith(b, market, outcome, false, deadHeat, 0, plan).value.wagers, id);
  }

  predicate IsGradedRow(w: Wager, market: Id, outcome: Option<map<Id, Grade>>, next: Wager) {
    if w.market != market || w.state != Accepted then next == w
    else if outcome.None? then next == w.(state := Refunded)
    else
      w.selection in outcome.value && next == w.(state := if outcome.value[w.selection] == Void then Refunded else Graded)
  }

  lemma GradedRow(b: Book, market: Id, outcome: Option<map<Id, Grade>>, divisor: int, ss: seq<WagerSettlement>,
                  after: map<Id, Wager>, id: Id)
    requires id in b.wagers && WagerShape(b.markets, b.wagers[id]) && market in b.markets
    requires outcome.Some? ==> outcome.value.Keys == b.markets[market].lines.Keys
    requires SettlesMarket(b.wagers, market, ss) && IsSettledTable(b.wagers, ss, after)
    requires AllOwed(b.wagers, MarketRecord(outcome, divisor), ss)
    ensures id in after && IsGradedRow(b.wagers[id], market, outcome, after[id])
  {
    if IsSettledIn(ss, id) {
      var i :| 0 <= i < |ss| && ss[i].wager == id;
      var w, record := b.wagers[id], MarketRecord(outcome, divisor);
      assert MovedOn(b.wagers, ss[i], after) && SettlesOn(b.wagers, market, ss[i]) && OwedBy(b.wagers, record, ss[i]);
      SettlementMovesTheStake(w, GradeUnder(record, w.selection), DivisorUnder(record, w.selection));
      assert w.(state := Accepted) == w;
    }
  }

  // ---- Parlay legs ------------------------------------------------------------------------------

  /** Every open leg an accepted parlay has on the market gets what its side was
      graded, or a void when the market is; every other leg is as it was, and so is
      every other parlay. */
  lemma EveryOpenLegIsMarked(b: Book, market: Id, outcome: Option<map<Id, Grade>>, deadHeat: bool, plan: Plan, id: Id)
    requires Sound(b) && IsPlan(b, market, plan) && id in b.parlays
    requires SettleWith(b, market, outcome, false, deadHeat, 0, plan).Ok?
    ensures var after := SettleWith(b, market, outcome, false, deadHeat, 0, plan).value;
      id in after.parlays && IsMarkedRow(b.parlays[id], market, outcome, after.parlays[id])
  {
    var divisor, ss, posted := SettleWithSettles(b, market, outcome, false, deadHeat, 0, plan);
    var after := SettleWith(b, market, outcome, false, deadHeat, 0, plan).value;
    assert IsNextParlay(b.parlays[id], market, outcome, after.parlays[id]);
    MarkedRowIs(b.parlays[id], market, outcome, after.parlays[id]);
    LegsInOutcome(b, market, outcome, id);
  }

  predicate IsMarkedRow(p: Parlay, market: Id, outcome: Option<map<Id, Grade>>, next: Parlay) {
    && |next.legs| == |p.legs| && next == p.(legs := next.legs, state := next.state)
    && (p.state != Accepted ==> next == p)
    && (p.state == Accepted ==> next.state == Accepted || next.state == Graded)
    && forall i :: 0 <= i < |p.legs| && p.state == Accepted ==> IsMarkedLeg(p.legs[i], market, outcome, next.legs[i])
  }

  predicate IsMarkedLeg(leg: Leg, market: Id, outcome: Option<map<Id, Grade>>, next: Leg) {
    if leg.market != market || leg.result.Some? then next == leg
    else if outcome.None? then next == leg.(result := Some(Void))
    else leg.selection in outcome.value && next == leg.(result := Some(outcome.value[leg.selection]))
  }

  predicate LegsAreGraded(p: Parlay, market: Id, outcome: Option<map<Id, Grade>>) {
    outcome.Some? && p.state == Accepted ==>
      forall i :: 0 <= i < |p.legs| && p.legs[i].market == market && p.legs[i].result.None? ==> p.legs[i].selection in outcome.value
  }

  lemma LegsInOutcome(b: Book, market: Id, outcome: Option<map<Id, Grade>>, id: Id)
    requires LegsCovered(b, market, outcome) && id in b.parlays
    ensures LegsAreGraded(b.parlays[id], market, outcome)
  {
    if outcome.Some? && b.parlays[id].state == Accepted {
      assert LegsGraded(b.parlays[id], market, outcome.value);
      forall i | 0 <= i < |b.parlays[id].legs| && IsOpenOn(b.parlays[id].legs[i], market)
        ensures b.parlays[id].legs[i].selection in outcome.value
      {
      }
    }
  }

  lemma MarkedRowIs(p: Parlay, market: Id, outcome: Option<map<Id, Grade>>, next: Parlay)
    requires IsNextParlay(p, market, outcome, next)
    ensures LegsAreGraded(p, market, outcome) ==> IsMarkedRow(p, market, outcome, next)
  {
    if p.state == Accepted && !IsAffected(p, market) {
      assert forall i :: 0 <= i < |p.legs| ==> !IsOpenOn(p.legs[i], market);
    }
  }

  // ---- Regrading --------------------------------------------------------------------------------

  /** On every reachable book a regrade finds something exactly on a settled market
      with a wager still accepted; and a committed one grades every such wager by
      the market's first decision and changes no other wager. */
  lemma RegradeGradesTheStranded(ops: seq<Op>, market: Id, plan: Plan, id: Id)
    requires IsPlan(Run(ops), market, plan)
    ensures Regrade(Run(ops), market, plan) == Err(NothingToRegrade)
      || (market in Run(ops).markets && Run(ops).markets[market].state == Settled && HasAccepted(Run(ops), market))
    ensures Regrade(Run(ops), market, plan).Ok? && id in Run(ops).wagers ==>
      && id in Regrade(Run(ops), market, plan).value.wagers && Records(Run(ops), market) != []
      && IsGradedRow(Run(ops).wagers[id], market, Some(Records(Run(ops), market)[0].outcome), Regrade(Run(ops), market, plan).value.wagers[id])
  {
    RunIsHealthy(ops);
    if Regrade(Run(ops), market, plan).Ok? && id in Run(ops).wagers {
      RegradedRow(Run(ops), SlackOf(ops), market, plan, id);
    }
  }

  predicate HasAccepted(b: Book, market: Id) {
    exists id :: id in b.wagers && b.wagers[id].market == market && b.wagers[id].state == Accepted
  }

  lemma RegradedRow(b: Book, slack: Slack, market: Id, plan: Plan, id: Id)
    requires Healthy(b, slack) && IsPlan(b, market, plan) && Regrade(b, market, plan).Ok? && id in b.wagers
    ensures id in Regrade(b, market, plan).value.wagers && Records(b, market) != []
    ensures IsGradedRow(b.wagers[id], market, Some(Records(b, market)[0].outcome), Regrade(b, market, plan).value.wagers[id])
  {
    var record, largest := RegradeIsSettlement(b, market, plan);
    var divisor, ss, posted := SettleWithSettles(b, market, Some(record.outcome), true, largest > 1, largest, plan);
    assert MarketRecords(b.markets[market], Records(b, market));
    SoundWager(b, id);
    GradedRow(b, market, Some(record.outcome), divisor, ss, Regrade(b, market, plan).value.wagers, id);
    FirstIsLast(b, market, record);
  }

  lemma FirstIsLast(b: Book, market: Id, record: Record)
    requires market in b.markets && b.markets[market].state == Settled && MarketRecords(b.markets[market], Records(b, market))
    requires LastGraded(Records(b, market)) == Some(record)
    ensures Records(b, market) != [] && record == Records(b, market)[0]
  {
    var records := Records(b, market);
    assert records[|records| - 1] == records[0];
  }
}
