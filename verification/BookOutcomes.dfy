/** What members are paid over every run, and when a settlement commits. */
module BookOutcomes {
  import opened Results
  import opened Ledger
  import opened Wagers
  import opened Settlement
  import opened Parlays
  import opened BookState
  import opened BookInvariant
  import opened BookSettlement
  import opened BookChanges
  import opened BookHistory
  import opened BookPayments
  import opened BookRuns

  // ---- Equal bets are paid alike ------------------------------------------------------

  /** The member's part of a wager's settlement on the ledger. */
  function PaidTo(w: Wager, t: Txn): int {
    NetTo(t.postings, FundingAccount(w))
  }

  lemma OwedReturned(w: Wager, record: Record, s: WagerSettlement)
    requires ValidWager(w) && Owed(w, record) == Ok(s)
    ensures NetTo(s.postings, FundingAccount(w)) == s.returned
  {
    SettlementMovesTheStake(w.(state := Accepted), GradeUnder(record, w.selection), DivisorUnder(record, w.selection));
  }

  lemma SameReturned(w: Wager, v: Wager, grade: Grade, divisor: int)
    requires w.stake == v.stake && w.odds == v.odds
    requires SettleWager(w, grade, divisor).Ok? && SettleWager(v, grade, divisor).Ok?
    ensures SettleWager(w, grade, divisor).value.returned == SettleWager(v, grade, divisor).value.returned
  {
  }

  lemma PaymentOf(b: Book, t: Txn) returns (record: Record, s: WagerSettlement)
    requires PaymentsSound(b) && RecordsSound(b) && t in b.log && t.key.WagerSettle?
    requires t.key.wager in b.wagers && WagerShape(b.markets, b.wagers[t.key.wager])
    ensures var w := b.wagers[t.key.wager];
      && record in Records(b, w.market) && Owed(w, record) == Ok(s) && PaidTo(w, t) == s.returned
  {
    var i :| 0 <= i < |b.log| && b.log[i] == t;
    assert Paid(b, b.log[i]);
    var w := b.wagers[t.key.wager];
    record := Records(b, w.market)[t.key.version - 1];
    s := Owed(w, record).value;
    OwedReturned(w, record, s);
  }

  lemma OneDecision(b: Book, market: Id, x: Record, y: Record)
    requires RecordsSound(b) && market in b.markets && x in Records(b, market) && y in Records(b, market)
    ensures x == y
  {
    assert MarketRecords(b.markets[market], Records(b, market));
  }

  /** Two wagers with equal stake, odds and selection are paid the same,
      whichever settlement version graded each: a regrade replays the recorded
      outcome and dead heat and never decides again. */
  lemma EqualBetsArePaidAlike(ops: seq<Op>, t: Txn, u: Txn)
    requires t in Run(ops).log && u in Run(ops).log && t.key.WagerSettle? && u.key.WagerSettle?
    requires t.key.wager in Run(ops).wagers && u.key.wager in Run(ops).wagers
    requires var w, v := Run(ops).wagers[t.key.wager], Run(ops).wagers[u.key.wager];
      w.market == v.market && w.selection == v.selection && w.stake == v.stake && w.odds == v.odds
    ensures PaidTo(Run(ops).wagers[t.key.wager], t) == PaidTo(Run(ops).wagers[u.key.wager], u)
  {
    RunIsHealthy(ops);
    AlikeIn(Run(ops), SlackOf(ops), t, u);
  }

  lemma AlikeIn(b: Book, slack: Slack, t: Txn, u: Txn)
    requires Healthy(b, slack) && t in b.log && u in b.log && t.key.WagerSettle? && u.key.WagerSettle?
    requires t.key.wager in b.wagers && u.key.wager in b.wagers
    requires var w, v := b.wagers[t.key.wager], b.wagers[u.key.wager];
      w.market == v.market && w.selection == v.selection && w.stake == v.stake && w.odds == v.odds
    ensures PaidTo(b.wagers[t.key.wager], t) == PaidTo(b.wagers[u.key.wager], u)
  {
    SoundWager(b, t.key.wager);
    SoundWager(b, u.key.wager);
    var w, v := b.wagers[t.key.wager], b.wagers[u.key.wager];
    var x, s := PaymentOf(b, t);
    var y, r := PaymentOf(b, u);
    OneDecision(b, w.market, x, y);
    SameReturned(w.(state := Accepted), v.(state := Accepted), GradeUnder(x, w.selection), DivisorUnder(x, w.selection));
  }

  // ---- Regrading ----------------------------------------------------------------------------

  lemma UngradedMarket(b: Book, slack: Slack, id: Id)
    requires LiveSound(b, slack) && !slack.unchecked && id in b.wagers && b.wagers[id].state == Accepted
    ensures b.wagers[id].market in b.markets && b.markets[b.wagers[id].market].state != Settled
  {
    assert WagerLive(b.markets, b.wagers[id], slack);
  }

  /** With the market check there is never anything to regrade. */
  lemma NothingIsStranded(ops: seq<Op>, market: Id, plan: Plan)
    requires IsChecked(ops)
    ensures Regrade(Run(ops), market, plan) == Err(NothingToRegrade)
  {
    RunIsHealthy(ops);
    CheckedSlack(ops);
    var b := Run(ops);
    if HasStranded(b, market) {
      var id :| id in b.wagers && b.wagers[id].market == market && b.wagers[id].state == Accepted;
      UngradedMarket(b, SlackOf(ops), id);
    }
  }

  /** `after` has one more version of the market's decision, the same markets
      and no accepted wager left on this one. */
  predicate RepeatsDecision(b: Book, market: Id, after: Book) {
    && market in b.markets && b.markets[market].state == Settled && after.markets == b.markets
    && Records(b, market) != [] && Records(after, market) == Records(b, market) + [Records(b, market)[0]]
    && forall id :: id in after.wagers ==> !AcceptedOn(after.wagers[id], market)
  }

  /** A committed regrade repeats the recorded decision as a new version, and
      leaves no accepted wager behind on the market. */
  lemma RegradeReplays(ops: seq<Op>, market: Id, plan: Plan)
    requires Enabled(Run(ops), OpRegrade(market, plan)) && Perform(Run(ops), OpRegrade(market, plan)).Ok?
    ensures RepeatsDecision(Run(ops), market, Step(Run(ops), OpRegrade(market, plan)))
  {
    RunIsHealthy(ops);
    RegradeIn(Run(ops), SlackOf(ops), market, plan);
    StepCommits(Run(ops), OpRegrade(market, plan));
  }

  lemma RegradeIn(b: Book, slack: Slack, market: Id, plan: Plan)
    requires Healthy(b, slack) && IsPlan(b, market, plan) && Regrade(b, market, plan).Ok?
    ensures RepeatsDecision(b, market, Regrade(b, market, plan).value)
  {
    var record, largest := RegradeIsSettlement(b, market, plan);
    var divisor, ss, posted := SettleWithSettles(b, market, Some(record.outcome), true, largest > 1, largest, plan);
    RegradedTables(b, market, record, divisor, ss, posted, Regrade(b, market, plan).value);
  }

  lemma RegradedTables(b: Book, market: Id, record: Record, divisor: int, ss: seq<WagerSettlement>, posted: seq<Txn>, after: Book)
    requires RecordsSound(b) && market in b.markets && b.markets[market].state == Settled
    requires LastGraded(Records(b, market)) == Some(record) && Replays(record, divisor)
    requires IsSettled(b, market, Some(record.outcome), divisor, ss, posted, after)
    ensures RepeatsDecision(b, market, after)
  {
    var records := Records(b, market);
    assert MarketRecords(b.markets[market], records);
    assert LastGraded(records) == Some(records[|records| - 1]);
    ReplayRepeats(b.markets[market], record, divisor);
    forall id | id in after.wagers ensures !AcceptedOn(after.wagers[id], market) {
      SettledRow(b.wagers, market, ss, after.wagers, id);
    }
  }

  // ---- When a settlement commits ------------------------------------------------------------

  function GradeIn(outcome: Option<map<Id, Grade>>, selection: Id): Grade {
    if outcome.Some? && selection in outcome.value then outcome.value[selection] else Void
  }

  /** If the wager wins, the part that rides and its profit fit int64. */
  function Fits(outcome: Option<map<Id, Grade>>, divisor: int): Wager -> bool {
    (w: Wager) => GradeIn(outcome, w.selection) == Win ==> w.stake.cents >= 0 && WinFits(w, divisor)
  }

  lemma FitsSettles(w: Wager, outcome: Option<map<Id, Grade>>, divisor: int)
    requires ValidWager(w) && w.state == Accepted
    ensures Fits(outcome, divisor)(w) == SettleWager(w, GradeIn(outcome, w.selection), divisor).Ok?
  {
    SettlementMovesTheStake(w, GradeIn(outcome, w.selection), divisor);
  }

  predicate EveryRow(ws: seq<Wager>, f: Wager -> bool) {
    forall w :: w in ws ==> f(w)
  }

  predicate EveryAccepted(wagers: map<Id, Wager>, market: Id, f: Wager -> bool) {
    forall id :: id in wagers && AcceptedOn(wagers[id], market) ==> f(wagers[id])
  }

  predicate AreTheAccepted(ws: seq<Wager>, wagers: map<Id, Wager>, market: Id) {
    && (forall w :: w in ws ==> w.id in wagers && wagers[w.id] == w && AcceptedOn(w, market))
    && (forall id :: id in wagers && AcceptedOn(wagers[id], market) ==> wagers[id] in ws)
  }

  lemma SameRows(ws: seq<Wager>, wagers: map<Id, Wager>, market: Id, f: Wager -> bool)
    requires AreTheAccepted(ws, wagers, market)
    ensures EveryRow(ws, f) <==> EveryAccepted(wagers, market, f)
  {
    if !EveryRow(ws, f) {
      var w :| w in ws && !f(w);
      assert wagers[w.id] == w;
    }
  }

  lemma {:induction false} SettleEachExactly(ws: seq<Wager>, grades: map<Id, Grade>, divisor: int, f: Wager -> bool)
    requires forall w :: w in ws ==> w.selection in grades && f(w) == SettleWager(w, grades[w.selection], divisor).Ok?
    ensures SettleEach(ws, grades, divisor).Ok? <==> EveryRow(ws, f)
  {
    if ws == [] {
    } else {
      var init, last := ws[..|ws| - 1], ws[|ws| - 1];
      assert ws == init + [last];
      SettleEachExactly(init, grades, divisor, f);
      assert last in ws;
    }
  }

  predicate Covers(b: Book, market: Id, outcome: Option<map<Id, Grade>>) {
    outcome.Some? ==> market in b.markets && outcome.value.Keys == b.markets[market].lines.Keys
  }

  lemma PlannedRow(b: Book, market: Id, outcome: Option<map<Id, Grade>>, plan: Plan, w: Wager)
    requires ShapesSound(b) && IsPlan(b, market, plan) && Covers(b, market, outcome)
    requires w in plan.rows
    ensures ValidWager(w) && w.selection in GradeMap(plan.rows, outcome)
    ensures GradeMap(plan.rows, outcome)[w.selection] == GradeIn(outcome, w.selection)
  {
    assert WagerShape(b.markets, b.wagers[w.id]);
  }

  lemma PlannedRows(b: Book, market: Id, plan: Plan)
    requires IsPlan(b, market, plan) && OwnRows(b)
    ensures AreTheAccepted(Sorted(AcceptedOf(plan.rows)), b.wagers, market)
  {
    AcceptedRows(plan.rows);
    forall id | id in b.wagers && AcceptedOn(b.wagers[id], market) ensures b.wagers[id] in Sorted(AcceptedOf(plan.rows)) {
      assert b.wagers[id] in plan.rows;
    }
  }

  lemma SettlementsFit(b: Book, market: Id, outcome: Option<map<Id, Grade>>, plan: Plan, divisor: int)
    requires ShapesSound(b) && OwnRows(b) && IsPlan(b, market, plan) && Covers(b, market, outcome)
    ensures SettleEach(Sorted(AcceptedOf(plan.rows)), GradeMap(plan.rows, outcome), divisor).Ok?
      <==> EveryAccepted(b.wagers, market, Fits(outcome, divisor))
  {
    var ws, grades := Sorted(AcceptedOf(plan.rows)), GradeMap(plan.rows, outcome);
    AcceptedRows(plan.rows);
    PlannedRows(b, market, plan);
    SameRows(ws, b.wagers, market, Fits(outcome, divisor));
    forall w | w in ws
      ensures w.selection in grades && Fits(outcome, divisor)(w) == SettleWager(w, grades[w.selection], divisor).Ok?
    {
      PlannedRow(b, market, outcome, plan, w);
      FitsSettles(w, outcome, divisor);
    }
    SettleEachExactly(ws, grades, divisor, Fits(outcome, divisor));
  }

  predicate CanSettle(p: Parlay) {
    !IsRefused(p, DEFAULT_JUICE)
  }

  /** With these results the parlay has lost, still waits, is returned, or has
      winners that can be paid. */
  predicate Pays(p: Parlay) {
    LegOddsValid(p.legs) && LegsPay(p.legs, p.stake.cents, DEFAULT_JUICE)
  }

  lemma LegsAreCovered(b: Book, market: Id, outcome: Option<map<Id, Grade>>)
    requires ShapesSound(b) && Covers(b, market, outcome)
    ensures LegsCovered(b, market, outcome)
  {
    if outcome.Some? {
      forall id | id in b.parlays ensures LegsGraded(b.parlays[id], market, outcome.value) {
        var p := b.parlays[id];
        assert ParlayShape(b.markets, p);
        forall i | 0 <= i < |p.legs| && IsOpenOn(p.legs[i], market) ensures p.legs[i].selection in outcome.value {
          assert LegShape(b.markets, p.legs[i]);
        }
      }
    }
  }

  // ---- Parlays in a settlement ----------------------------------------------------------------

  predicate AllCanSettle(parlays: map<Id, Parlay>, order: seq<Id>) {
    forall id :: id in order ==> id in parlays && CanSettle(parlays[id])
  }

  lemma VisitExactly(b: Book, id: Id)
    requires RowsSound(b) && id in b.parlays && b.parlays[id].state == Accepted
    ensures SettleParlayIfComplete(b, id).Ok? <==> CanSettle(b.parlays[id])
  {
    ParlayKeysAbsent(b.log, b.parlays[id]);
  }

  lemma SoundParlays(b: Book)
    requires Sound(b)
    ensures RowsSound(b) && OwnRows(b)
  {
  }

  lemma VisitLastExactly(b: Book, init: seq<Id>, last: Id)
    requires Sound(b) && SettleParlays(b, init).Ok? && DistinctOrder(init) && last !in init
    requires forall id :: id in init + [last] ==> id in b.parlays && b.parlays[id].state == Accepted
    ensures SettleParlayIfComplete(SettleParlays(b, init).value, last).Ok? <==> CanSettle(b.parlays[last])
  {
    assert last in init + [last];
    VisitingIsSafe(b, init);
    SoundParlays(b);
    VisitingChanges(b, init);
    var mid := SettleParlays(b, init).value;
    assert Visited(b.parlays[last], last in init, mid.parlays[last]);
    SoundParlays(mid);
    VisitExactly(mid, last);
  }

  lemma {:induction false} VisitingExactly(b: Book, order: seq<Id>)
    requires Sound(b) && DistinctOrder(order)
    requires forall id :: id in order ==> id in b.parlays && b.parlays[id].state == Accepted
    ensures SettleParlays(b, order).Ok? <==> AllCanSettle(b.parlays, order)
  {
    if order == [] {
    } else {
      var init, last := order[..|order| - 1], order[|order| - 1];
      assert order == init + [last] && last !in init;
      VisitingExactly(b, init);
      if SettleParlays(b, init).Ok? {
        VisitLastExactly(b, init, last);
      }
      assert AllCanSettle(b.parlays, order) <==> AllCanSettle(b.parlays, init) && CanSettle(b.parlays[last]);
    }
  }

  /** Every accepted parlay with an open leg on the market can be settled, or
      still waits, once that leg has its result. */
  predicate ParlaysCanSettle(b: Book, market: Id, outcome: Option<map<Id, Grade>>) {
    forall id :: id in b.parlays && IsAffected(b.parlays[id], market) ==>
      CanSettle(MarkedParlay(b.parlays[id], market, outcome))
  }

  lemma PlannedVisits(b: Book, market: Id, outcome: Option<map<Id, Grade>>, plan: Plan)
    requires IsPlan(b, market, plan)
    ensures AllCanSettle(MarkParlays(b, market, outcome).parlays, plan.parlays) <==> ParlaysCanSettle(b, market, outcome)
  {
    var marked := MarkParlays(b, market, outcome).parlays;
    forall id | id in b.parlays && IsAffected(b.parlays[id], market)
      ensures id in plan.parlays && marked[id] == MarkedParlay(b.parlays[id], market, outcome)
    {
      assert id in Affected(b, market);
    }
    forall id | id in plan.parlays ensures id in b.parlays && IsAffected(b.parlays[id], market) {
      assert id in Affected(b, market);
    }
  }

  lemma FinishExactly(settled: Book, market: Id, outcome: Option<map<Id, Grade>>, divisor: int, b: Book, plan: Plan)
    requires Sound(settled) && market in settled.markets && LegsCovered(settled, market, outcome)
    requires IsPlan(b, market, plan) && settled.parlays == b.parlays
    ensures Finish(settled, market, outcome, divisor, plan.parlays).Ok? <==> ParlaysCanSettle(b, market, outcome)
  {
    var marked := Marked(settled, market, outcome, divisor);
    MarkedIsSafe(settled, market, outcome, divisor);
    assert marked.parlays == MarkParlays(b, market, outcome).parlays;
    forall id | id in plan.parlays ensures id in marked.parlays && marked.parlays[id].state == Accepted {
      AffectedOrder(b, market, outcome, plan, id);
    }
    VisitingExactly(marked, plan.parlays);
    PlannedVisits(b, market, outcome, plan);
    FinishIsVisiting(settled, market, outcome, divisor, plan.parlays);
  }

  lemma FinishIsVisiting(b: Book, market: Id, outcome: Option<map<Id, Grade>>, divisor: int, order: seq<Id>)
    requires market in b.markets && LegsCovered(b, market, outcome)
    ensures Finish(b, market, outcome, divisor, order) == SettleParlays(Marked(b, market, outcome, divisor), order)
  {
  }

  // ---- The settlement as a whole --------------------------------------------------------------------

  predicate DivisorFor(outcome: Option<map<Id, Grade>>, declared: bool, divisor: int) {
    if outcome.Some? then DeadHeatDivisor(declared, 0, outcome.value) == Ok(divisor) else divisor == 1
  }

  predicate FirstSettlement(b: Book, market: Id, outcome: Option<map<Id, Grade>>) {
    && market in b.markets && b.markets[market].state in {Open, Closed, SettlementPending}
    && (outcome.Some? ==> outcome.value.Keys == b.markets[market].lines.Keys)
  }

  lemma SettleWithIs(b: Book, market: Id, outcome: Option<map<Id, Grade>>, declared: bool, divisor: int, plan: Plan)
    requires FirstSettlement(b, market, outcome) && DivisorFor(outcome, declared, divisor)
    ensures SettleWith(b, market, outcome, false, declared, 0, plan) == SettleRows(b, market, outcome, divisor, plan)
  {
  }

  lemma RowsApply(b: Book, market: Id, outcome: Option<map<Id, Grade>>, divisor: int, plan: Plan, ss: seq<WagerSettlement>)
    requires Sound(b) && IsPlan(b, market, plan)
    requires SettleEach(Sorted(AcceptedOf(plan.rows)), GradeMap(plan.rows, outcome), divisor) == Ok(ss)
    ensures ApplySettlements(b, ss, |Records(b, market)| + 1).Ok?
  {
    PlannedSettlements(b, market, plan, GradeMap(plan.rows, outcome), divisor);
    ApplyIsSafe(b, ss, |Records(b, market)| + 1);
  }

  lemma PayableSettles(b: Book, market: Id, outcome: Option<map<Id, Grade>>, divisor: int, plan: Plan)
    returns (settled: Book)
    requires Sound(b) && IsPlan(b, market, plan)
    requires SettleEach(Sorted(AcceptedOf(plan.rows)), GradeMap(plan.rows, outcome), divisor).Ok?
    ensures Sound(settled) && settled.markets == b.markets && settled.parlays == b.parlays
    ensures SettleRows(b, market, outcome, divisor, plan) == Finish(settled, market, outcome, divisor, plan.parlays)
  {
    var ss := SettleEach(Sorted(AcceptedOf(plan.rows)), GradeMap(plan.rows, outcome), divisor).value;
    RowsApply(b, market, outcome, divisor, plan, ss);
    settled := ApplySettlements(b, ss, |Records(b, market)| + 1).value;
    SettledBookIsSafe(b, market, outcome, divisor, plan, ss, settled);
    RowsThenFinish(b, market, outcome, divisor, plan, ss, settled);
  }

  lemma RowsCommit(b: Book, market: Id, outcome: Option<map<Id, Grade>>, divisor: int, plan: Plan)
    requires Sound(b) && IsPlan(b, market, plan) && market in b.markets && Covers(b, market, outcome)
    ensures SettleRows(b, market, outcome, divisor, plan).Ok?
      <==> SettleEach(Sorted(AcceptedOf(plan.rows)), GradeMap(plan.rows, outcome), divisor).Ok?
           && ParlaysCanSettle(b, market, outcome)
  {
    if SettleEach(Sorted(AcceptedOf(plan.rows)), GradeMap(plan.rows, outcome), divisor).Ok? {
      var settled := PayableSettles(b, market, outcome, divisor, plan);
      SoundShapes(settled);
      LegsAreCovered(settled, market, outcome);
      FinishExactly(settled, market, outcome, divisor, b, plan);
    }
  }

  /** Every accepted parlay with an open leg on the market pays, or still waits,
      once that leg has its result. */
  predicate ParlaysPay(b: Book, market: Id, outcome: Option<map<Id, Grade>>) {
    forall id :: id in b.parlays && IsAffected(b.parlays[id], market) ==> Pays(MarkedParlay(b.parlays[id], market, outcome))
  }

  lemma PaysExactly(b: Book, market: Id, outcome: Option<map<Id, Grade>>)
    requires ShapesSound(b)
    ensures ParlaysCanSettle(b, market, outcome) <==> ParlaysPay(b, market, outcome)
  {
    forall id | id in b.parlays && IsAffected(b.parlays[id], market)
      ensures CanSettle(MarkedParlay(b.parlays[id], market, outcome)) <==> Pays(MarkedParlay(b.parlays[id], market, outcome))
    {
      assert ParlayShape(b.markets, b.parlays[id]);
      MarkedShape(b.markets, b.parlays[id], market, outcome);
      SettlementRefusedExactly(MarkedParlay(b.parlays[id], market, outcome), DEFAULT_JUICE);
    }
  }

  lemma CommitsIn(b: Book, market: Id, outcome: Option<map<Id, Grade>>, declared: bool, divisor: int, plan: Plan)
    requires Sound(b) && IsPlan(b, market, plan)
    requires FirstSettlement(b, market, outcome) && DivisorFor(outcome, declared, divisor)
    ensures SettleWith(b, market, outcome, false, declared, 0, plan).Ok?
      <==> EveryAccepted(b.wagers, market, Fits(outcome, divisor)) && ParlaysPay(b, market, outcome)
  {
    SoundShapes(b);
    SoundParlays(b);
    PaysExactly(b, market, outcome);
    SettlementsFit(b, market, outcome, plan, divisor);
    RowsCommit(b, market, outcome, divisor, plan);
    SettleWithIs(b, market, outcome, declared, divisor, plan);
  }

  /** On any reachable book, grading or voiding an undecided market with a full
      outcome is refused only for money: a winning wager whose payout leaves
      int64, or a parlay that its new results decide and whose winners together
      are shorter than even money or pay less than a cent or more than int64. */
  lemma SettlementCommitsExactly(ops: seq<Op>, market: Id, outcome: Option<map<Id, Grade>>, declared: bool,
                                 divisor: int, plan: Plan)
    requires IsPlan(Run(ops), market, plan)
    requires FirstSettlement(Run(ops), market, outcome) && DivisorFor(outcome, declared, divisor)
    ensures SettleWith(Run(ops), market, outcome, false, declared, 0, plan).Ok?
      <==> EveryAccepted(Run(ops).wagers, market, Fits(outcome, divisor)) && ParlaysPay(Run(ops), market, outcome)
  {
    RunIsHealthy(ops);
    CommitsIn(Run(ops), market, outcome, declared, divisor, plan);
  }

  // ---- Parlays on the ledger ---------------------------------------------------------------------------

  lemma AllWinGrade(p: Parlay)
    requires PricedAsPlaced(p) && GradeParlay(p, DEFAULT_JUICE).Ok?
    requires forall i :: 0 <= i < |p.legs| ==> p.legs[i].result == Some(Win)
    ensures GradeParlay(p, DEFAULT_JUICE).value
         == ParlayOutcome(Win, p.odds, p.potentialProfit, p.stake.cents + p.potentialProfit)
  {
    AllWinnersAreAllLegs(p.legs);
    ScanResolved(p.legs);
  }

  lemma PaidAllWin(p: Parlay, t: Txn)
    requires PricedAsPlaced(p) && PaysParlay(p, t) && ValidStake(p.stake)
    requires forall i :: 0 <= i < |p.legs| ==> p.legs[i].result == Some(Win)
    ensures NetTo(t.postings, ParlayAccount(p)) == p.stake.cents + p.potentialProfit
    ensures NetTo(t.postings, House(p.stake.currency)) == -p.potentialProfit
  {
    AllWinGrade(p);
    var outcome := GradeParlay(p, DEFAULT_JUICE).value;
    GradedAmounts(p, DEFAULT_JUICE);
    ParlayPostingsMove(p, outcome);
  }

  lemma SoundParlay(b: Book, id: Id)
    requires Sound(b) && id in b.parlays
    ensures ParlayShape(b.markets, b.parlays[id])
  {
  }

  /** A parlay whose legs all won was paid its stake and exactly the potential
      profit struck when it was placed, by the house. */
  lemma AllWinParlaysArePaidInFull(ops: seq<Op>, t: Txn)
    requires t in Run(ops).log && t.key.ParlaySettle? && t.key.parlay in Run(ops).parlays
    requires var p := Run(ops).parlays[t.key.parlay]; forall i :: 0 <= i < |p.legs| ==> p.legs[i].result == Some(Win)
    ensures var p := Run(ops).parlays[t.key.parlay];
      && NetTo(t.postings, ParlayAccount(p)) == p.stake.cents + p.potentialProfit
      && NetTo(t.postings, House(p.stake.currency)) == -p.potentialProfit
  {
    RunIsHealthy(ops);
    var b, p := Run(ops), Run(ops).parlays[t.key.parlay];
    var i :| 0 <= i < |b.log| && b.log[i] == t;
    assert Paid(b, b.log[i]);
    assert PricedAsPlaced(p);
    SoundParlay(b, t.key.parlay);
    PaidAllWin(p, t);
  }

  /** A parlay with a losing leg was settled for nothing, even while other legs
      were still open. */
  lemma LosingParlaysArePaidNothing(ops: seq<Op>, t: Txn)
    requires t in Run(ops).log && t.key.ParlaySettle? && t.key.parlay in Run(ops).parlays
    requires HasLoss(Run(ops).parlays[t.key.parlay].legs)
    ensures var p := Run(ops).parlays[t.key.parlay];
      && NetTo(t.postings, ParlayAccount(p)) == 0
      && NetTo(t.postings, House(p.stake.currency)) == p.stake.cents
  {
    RunIsHealthy(ops);
    var b, p := Run(ops), Run(ops).parlays[t.key.parlay];
    var i :| 0 <= i < |b.log| && b.log[i] == t;
    assert Paid(b, b.log[i]);
    SoundParlay(b, t.key.parlay);
    PaidLoss(p, t);
  }

  lemma PaidLoss(p: Parlay, t: Txn)
    requires HasLoss(p.legs) && PaysParlay(p, t) && ValidStake(p.stake)
    ensures NetTo(t.postings, ParlayAccount(p)) == 0 && NetTo(t.postings, House(p.stake.currency)) == p.stake.cents
  {
    EarlyLossIsFinal(p, p.(legs := Filled(p.legs)), DEFAULT_JUICE);
    var outcome := ParlayOutcome(Loss, p.odds, 0, 0);
    ParlayPostingsMove(p, outcome);
    assert t.postings == ParlayPostings(p, outcome);
    assert NetTo(t.postings, ParlayAccount(p)) == ParlayMovement(p, 0, ParlayAccount(p));
    assert NetTo(t.postings, House(p.stake.currency)) == ParlayMovement(p, 0, House(p.stake.currency));
  }
}
