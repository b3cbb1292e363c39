/** The exposure board against settlement: grading one selection as the sole
    winner moves the house by exactly what the board shows for it. */
module Forecast {
  import opened Results
  import opened Ledger
  import opened Wagers
  import opened Settlement
  import opened Totals
  import opened BookState
  import opened BookInvariant
  import opened BookSettlement
  import opened BookChanges
  import opened BookHistory
  import opened BookRuns
  import opened BookOutcomes
  import Exposure

  // ---- exposureSQL over the market's accepted wagers -----------------------------------------

  /** The board counts one currency. */
  const BOOK_CURRENCY := Currency("CAD")

  /** The join's condition: the selection's accepted wagers in the book's currency. */
  predicate IsCounted(w: Wager, selection: Id) {
    w.selection == selection && w.stake.currency == BOOK_CURRENCY
  }

  function StakeIfOn(selection: Id): Wager -> int {
    (w: Wager) => if IsCounted(w, selection) then w.stake.cents else 0
  }

  function PayoutIfOn(selection: Id): Wager -> int {
    (w: Wager) => if IsCounted(w, selection) then w.stake.cents + w.potentialProfit else 0
  }

  function StakeCents(): Wager -> int {
    (w: Wager) => w.stake.cents
  }

  function CountOn(ws: seq<Wager>, selection: Id): nat {
    if ws == [] then 0 else CountOn(ws[..|ws| - 1], selection) + if IsCounted(ws[|ws| - 1], selection) then 1 else 0
  }

  function RowFor(market: Id, ws: seq<Wager>, selection: Id): Exposure.Row {
    Exposure.Row(market, selection, CountOn(ws, selection), Tally(ws, StakeIfOn(selection)), Tally(ws, PayoutIfOn(selection)))
  }

  function RowsFor(market: Id, ws: seq<Wager>, selections: seq<Id>): (r: seq<Exposure.Row>)
    ensures |r| == |selections|
  {
    if selections == [] then []
    else RowsFor(market, ws, selections[..|selections| - 1]) + [RowFor(market, ws, selections[|selections| - 1])]
  }

  lemma {:induction false} RowsForAt(market: Id, ws: seq<Wager>, selections: seq<Id>, j: nat)
    requires j < |selections|
    ensures RowsFor(market, ws, selections)[j] == RowFor(market, ws, selections[j])
  {
    if j < |selections| - 1 {
      RowsForAt(market, ws, selections[..|selections| - 1], j);
    }
  }

  predicate Distinct(ids: seq<Id>) {
    forall i, j :: 0 <= i < j < |ids| ==> ids[i] != ids[j]
  }

  /** What one wager adds to the rows' stakes. */
  function StakeAmong(w: Wager, selections: seq<Id>): int {
    if w.selection in selections && w.stake.currency == BOOK_CURRENCY then w.stake.cents else 0
  }

  lemma StakeOfRows(market: Id, ws: seq<Wager>, selections: seq<Id>)
    requires selections != []
    ensures Exposure.StakeOf(RowsFor(market, ws, selections))
         == Exposure.StakeOf(RowsFor(market, ws, selections[..|selections| - 1]))
            + Tally(ws, StakeIfOn(selections[|selections| - 1]))
  {
    var rows := RowsFor(market, ws, selections);
    assert rows[..|rows| - 1] == RowsFor(market, ws, selections[..|selections| - 1]);
  }

  lemma {:induction false} OneMoreWager(market: Id, ws: seq<Wager>, w: Wager, selections: seq<Id>)
    requires Distinct(selections)
    ensures Exposure.StakeOf(RowsFor(market, ws + [w], selections))
         == Exposure.StakeOf(RowsFor(market, ws, selections)) + StakeAmong(w, selections)
  {
    if selections != [] {
      var init, last := selections[..|selections| - 1], selections[|selections| - 1];
      OneMoreWager(market, ws, w, init);
      TallyAppend(ws, w, StakeIfOn(last));
      StakeOfRows(market, ws, selections);
      StakeOfRows(market, ws + [w], selections);
      assert selections == init + [last];
      assert last !in init;
    }
  }

  lemma {:induction false} NoWagersNoStake(market: Id, selections: seq<Id>)
    ensures Exposure.StakeOf(RowsFor(market, [], selections)) == 0
  {
    if selections != [] {
      var init := selections[..|selections| - 1];
      NoWagersNoStake(market, init);
      var rows := RowsFor(market, [], selections);
      assert rows[..|rows| - 1] == RowsFor(market, [], init);
    }
  }

  lemma WholeStake(w: Wager, selections: seq<Id>)
    requires w.selection in selections && w.stake.currency == BOOK_CURRENCY
    ensures StakeAmong(w, selections) == StakeCents()(w)
  {
  }

  /** Every accepted stake is on exactly one of the market's rows. */
  lemma {:induction false} RowsHoldEveryStake(market: Id, ws: seq<Wager>, selections: seq<Id>)
    requires Distinct(selections) && forall w :: w in ws ==> w.selection in selections && w.stake.currency == BOOK_CURRENCY
    ensures Exposure.StakeOf(RowsFor(market, ws, selections)) == Tally(ws, StakeCents())
  {
    if ws == [] {
      NoWagersNoStake(market, selections);
    } else {
      var init, last := ws[..|ws| - 1], ws[|ws| - 1];
      assert ws == init + [last];
      RowsHoldEveryStake(market, init, selections);
      OneMoreWager(market, init, last, selections);
      TallyAppend(init, last, StakeCents());
      WholeStake(last, selections);
    }
  }

  lemma {:induction false} ForeignRowsAreEmpty(market: Id, ws: seq<Wager>, selection: Id)
    requires forall w :: w in ws ==> w.stake.currency != BOOK_CURRENCY
    ensures RowFor(market, ws, selection) == Exposure.Row(market, selection, 0, 0, 0)
  {
    if ws != [] {
      ForeignRowsAreEmpty(market, ws[..|ws| - 1], selection);
    }
  }

  // ---- Grading a sole winner --------------------------------------------------------------------

  function SoleWinner(lines: set<Id>, winner: Id): map<Id, Grade> {
    map s | s in lines :: if s == winner then Win else Loss
  }

  lemma SoleWinnerReturns(w: Wager, lines: set<Id>, winner: Id)
    requires ValidWager(w) && w.state == Accepted && w.selection in lines && w.stake.currency == BOOK_CURRENCY
    requires SettleWager(w, SoleWinner(lines, winner)[w.selection], 1).Ok?
    ensures var s := SettleWager(w, SoleWinner(lines, winner)[w.selection], 1).value;
      s.returned == PayoutIfOn(winner)(w) && s.stake == w.stake
  {
    SettlementReturns(w, SoleWinner(lines, winner)[w.selection], 1);
    SettlementMovesTheStake(w, SoleWinner(lines, winner)[w.selection], 1);
  }

  lemma {:induction false} SoleWinnerTotals(ws: seq<Wager>, lines: set<Id>, winner: Id)
    requires SettleEach(ws, SoleWinner(lines, winner), 1).Ok?
    requires forall w :: w in ws ==> ValidWager(w) && w.state == Accepted && w.stake.currency == BOOK_CURRENCY
    ensures var t := TotalsOf(SettleEach(ws, SoleWinner(lines, winner), 1).value);
      t.stake == Tally(ws, StakeCents()) && t.returned == Tally(ws, PayoutIfOn(winner))
  {
    if ws != [] {
      var init, last := ws[..|ws| - 1], ws[|ws| - 1];
      SoleWinnerTotals(init, lines, winner);
      SoleWinnerReturns(last, lines, winner);
      var ss := SettleEach(ws, SoleWinner(lines, winner), 1).value;
      assert ss[..|ss| - 1] == SettleEach(init, SoleWinner(lines, winner), 1).value;
    }
  }

  /** `m` is the board's entry for the market's accepted wagers `ws`. */
  predicate IsBoard(m: Exposure.Exposure, market: Id, ws: seq<Wager>, selections: seq<Id>) {
    Exposure.IsFinished(m, RowsFor(market, ws, selections))
  }

  /** The board's net for a selection is the stake less what settling that
      selection as sole winner returns. */
  lemma BoardNet(m: Exposure.Exposure, market: Id, ws: seq<Wager>, selections: seq<Id>, j: nat)
    requires IsBoard(m, market, ws, selections) && Distinct(selections) && j < |selections|
    requires forall w :: w in ws ==> w.selection in selections && w.stake.currency == BOOK_CURRENCY
    ensures j < |m.outcomes| && m.outcomes[j].houseNet == Tally(ws, StakeCents()) - Tally(ws, PayoutIfOn(selections[j]))
  {
    RowsHoldEveryStake(market, ws, selections);
    RowsForAt(market, ws, selections, j);
    assert Exposure.IsOutcome(m.outcomes[j], RowsFor(market, ws, selections)[j], m.stake);
  }

  /** Grading selection `j` as sole winner moves the house by the board's net for it. */
  lemma SoleWinnerMovesTheHouse(m: Exposure.Exposure, market: Id, ws: seq<Wager>, selections: seq<Id>, j: nat,
                                lines: set<Id>)
    requires IsBoard(m, market, ws, selections) && Distinct(selections) && j < |selections|
    requires forall w :: w in ws ==> ValidWager(w) && w.state == Accepted && w.stake.currency == BOOK_CURRENCY
    requires forall w :: w in ws ==> w.selection in selections
    requires SettleEach(ws, SoleWinner(lines, selections[j]), 1).Ok?
    ensures j < |m.outcomes|
    ensures NetOfAll(SettleEach(ws, SoleWinner(lines, selections[j]), 1).value, House(BOOK_CURRENCY)) == m.outcomes[j].houseNet
  {
    BoardNet(m, market, ws, selections, j);
    SoleWinnerTotals(ws, lines, selections[j]);
    HouseTakesTheDifference(ws, SoleWinner(lines, selections[j]), 1, BOOK_CURRENCY);
  }

  // ---- In the book -------------------------------------------------------------------------------

  lemma {:induction false} SettleTxnsNet(ss: seq<WagerSettlement>, version: nat, account: Account)
    ensures Tally(SettleTxns(ss, version), To(account)) == NetOfAll(ss, account)
  {
    if ss != [] {
      var init := ss[..|ss| - 1];
      SettleTxnsNet(init, version, account);
      TallyAppend(SettleTxns(init, version), SettleTxn(ss[|ss| - 1], version), To(account));
    }
  }

  lemma PostedNet(b: Book, market: Id, outcome: Option<map<Id, Grade>>, ss: seq<WagerSettlement>, posted: seq<Txn>, account: Account)
    requires SettlementLog(b, market, outcome, ss, posted)
    ensures Tally(posted, To(account)) == NetOfAll(ss, account) + Tally(posted[|ss|..], To(account))
    ensures PaysOnlyAffected(b.parlays, market, outcome, posted[|ss|..])
  {
    var version := |Records(b, market)| + 1;
    var txns, more := SettleTxns(ss, version), posted[|ss|..];
    forall k | 0 <= k < |ss| ensures posted[k] == txns[k] {
      assert IsSettlementRow(b, market, outcome, ss, k, posted[k]);
      SettleTxnsAt(ss, version, k);
    }
    forall k | 0 <= k < |more| ensures PaysAffected(b.parlays, market, outcome, more[k]) {
      assert IsSettlementRow(b, market, outcome, ss, |ss| + k, posted[|ss| + k]);
    }
    assert posted == txns + more;
    TallyConcat(txns, more, To(account));
    SettleTxnsNet(ss, version, account);
  }

  /** Settling moves each account by its wagers' net and by what the parlays it
      decides are paid. */
  lemma SettledBalance(b: Book, market: Id, outcome: map<Id, Grade>, plan: Plan, account: Account)
    returns (ss: seq<WagerSettlement>, parlayRows: seq<Txn>)
    requires Sound(b) && IsPlan(b, market, plan)
    requires SettleWith(b, market, Some(outcome), false, false, 0, plan).Ok?
    ensures SettleEach(Sorted(AcceptedOf(plan.rows)), outcome, 1) == Ok(ss)
    ensures PaysOnlyAffected(b.parlays, market, Some(outcome), parlayRows)
    ensures Balance(SettleWith(b, market, Some(outcome), false, false, 0, plan).value, account)
         == Balance(b, account) + NetOfAll(ss, account) + Tally(parlayRows, To(account))
  {
    var divisor, posted;
    divisor, ss, posted := SettleWithSettles(b, market, Some(outcome), false, false, 0, plan);
    parlayRows := posted[|ss|..];
    PostedNet(b, market, Some(outcome), ss, posted, account);
    TallyConcat(b.log, posted, To(account));
  }

  /** No parlay waiting on the market, no parlay row. */
  lemma NoWaitingNoRows(b: Book, market: Id, outcome: Option<map<Id, Grade>>, rows: seq<Txn>)
    requires PaysOnlyAffected(b.parlays, market, outcome, rows)
    requires forall id :: id in b.parlays ==> !IsAffected(b.parlays[id], market)
    ensures rows == []
  {
    assert rows == [] || PaysAffected(b.parlays, market, outcome, rows[0]);
  }

  lemma BoardRows(b: Book, market: Id, plan: Plan, currency: Currency)
    requires ShapesSound(b) && OwnRows(b) && IsPlan(b, market, plan)
    requires market in b.markets && b.markets[market].currency == currency
    ensures forall w :: w in Sorted(AcceptedOf(plan.rows)) ==>
      ValidWager(w) && w.state == Accepted && w.stake.currency == currency && w.selection in b.markets[market].lines
  {
    AcceptedRows(plan.rows);
    forall w | w in Sorted(AcceptedOf(plan.rows))
      ensures ValidWager(w) && w.state == Accepted && w.stake.currency == currency && w.selection in b.markets[market].lines
    {
      assert w in plan.rows;
      assert WagerShape(b.markets, b.wagers[w.id]);
    }
  }

  /** `after` differs from `b` at the house by the board's net for the winner and
      by the rows of the parlays that waited on the market. */
  ghost predicate MovesAsForecast(b: Book, market: Id, winner: Id, net: int, parlayRows: seq<Txn>, after: Book)
    requires market in b.markets
  {
    var house := House(b.markets[market].currency);
    && PaysOnlyAffected(b.parlays, market, Some(SoleWinner(b.markets[market].lines.Keys, winner)), parlayRows)
    && Balance(after, house) == Balance(b, house) + net + Tally(parlayRows, To(house))
  }

  /** The market is in the book's currency and these are its selections. */
  predicate ListsSelections(b: Book, market: Id, selections: seq<Id>) {
    && market in b.markets && b.markets[market].currency == BOOK_CURRENCY && Distinct(selections)
    && (forall s :: s in b.markets[market].lines ==> s in selections)
    && forall i :: 0 <= i < |selections| ==> selections[i] in b.markets[market].lines
  }

  /** On any reachable book, grading one of a market's selections as sole winner
      changes the house's balance by exactly the net the exposure board shows for
      that outcome, apart from the parlays the same grading decides. */
  lemma ForecastIsExact(ops: seq<Op>, market: Id, selections: seq<Id>, j: nat, m: Exposure.Exposure, plan: Plan)
    returns (parlayRows: seq<Txn>)
    requires IsPlan(Run(ops), market, plan) && ListsSelections(Run(ops), market, selections) && j < |selections|
    requires IsBoard(m, market, Sorted(AcceptedOf(plan.rows)), selections)
    requires SettleWith(Run(ops), market, Some(SoleWinner(Run(ops).markets[market].lines.Keys, selections[j])), false, false, 0, plan).Ok?
    ensures j < |m.outcomes|
    ensures MovesAsForecast(Run(ops), market, selections[j], m.outcomes[j].houseNet, parlayRows,
      SettleWith(Run(ops), market, Some(SoleWinner(Run(ops).markets[market].lines.Keys, selections[j])), false, false, 0, plan).value)
  {
    RunIsHealthy(ops);
    parlayRows := ForecastIn(Run(ops), SlackOf(ops), market, selections, j, m, plan);
  }

  lemma ForecastIn(b: Book, slack: Slack, market: Id, selections: seq<Id>, j: nat, m: Exposure.Exposure, plan: Plan)
    returns (parlayRows: seq<Txn>)
    requires Healthy(b, slack)
    requires IsPlan(b, market, plan) && ListsSelections(b, market, selections) && j < |selections|
    requires IsBoard(m, market, Sorted(AcceptedOf(plan.rows)), selections)
    requires SettleWith(b, market, Some(SoleWinner(b.markets[market].lines.Keys, selections[j])), false, false, 0, plan).Ok?
    ensures j < |m.outcomes|
    ensures MovesAsForecast(b, market, selections[j], m.outcomes[j].houseNet, parlayRows,
      SettleWith(b, market, Some(SoleWinner(b.markets[market].lines.Keys, selections[j])), false, false, 0, plan).value)
  {
    var lines := b.markets[market].lines.Keys;
    var ws := Sorted(AcceptedOf(plan.rows));
    SoundShapes(b);
    SoundParlays(b);
    BoardRows(b, market, plan, BOOK_CURRENCY);
    var ss;
    ss, parlayRows := SettledBalance(b, market, SoleWinner(lines, selections[j]), plan, House(BOOK_CURRENCY));
    SoleWinnerMovesTheHouse(m, market, ws, selections, j, lines);
  }

  /** With no parlay waiting on the market the house moves by the board's net alone. */
  lemma ForecastWithoutParlays(ops: seq<Op>, market: Id, selections: seq<Id>, j: nat, m: Exposure.Exposure, plan: Plan)
    requires IsPlan(Run(ops), market, plan) && ListsSelections(Run(ops), market, selections) && j < |selections|
    requires IsBoard(m, market, Sorted(AcceptedOf(plan.rows)), selections)
    requires SettleWith(Run(ops), market, Some(SoleWinner(Run(ops).markets[market].lines.Keys, selections[j])), false, false, 0, plan).Ok?
    requires forall id :: id in Run(ops).parlays ==> !IsAffected(Run(ops).parlays[id], market)
    ensures j < |m.outcomes|
    ensures MovesAsForecast(Run(ops), market, selections[j], m.outcomes[j].houseNet, [],
      SettleWith(Run(ops), market, Some(SoleWinner(Run(ops).markets[market].lines.Keys, selections[j])), false, false, 0, plan).value)
  {
    var rows := ForecastIsExact(ops, market, selections, j, m, plan);
    NoWaitingNoRows(Run(ops), market, Some(SoleWinner(Run(ops).markets[market].lines.Keys, selections[j])), rows);
  }

  /** A market in another currency shows no action at all, whatever is on it. */
  lemma ForeignBoardIsEmpty(ops: seq<Op>, market: Id, selections: seq<Id>, j: nat, plan: Plan)
    requires IsPlan(Run(ops), market, plan) && market in Run(ops).markets && j < |selections|
    requires Run(ops).markets[market].currency != BOOK_CURRENCY
    ensures var rows := RowsFor(market, Sorted(AcceptedOf(plan.rows)), selections);
      j < |rows| && rows[j] == Exposure.Row(market, selections[j], 0, 0, 0)
  {
    var ws := Sorted(AcceptedOf(plan.rows));
    RunIsHealthy(ops);
    AcceptedRows(plan.rows);
    forall w | w in ws ensures w.stake.currency != BOOK_CURRENCY {
      SoundWager(Run(ops), w.id);
    }
    ForeignRowsAreEmpty(market, ws, selections[j]);
    RowsForAt(market, ws, selections, j);
  }
}
