/** Grading the wagers of one market (internal/betting/settle.go). */
module Settlement {
  import opened Results
  import opened Ledger
  import opened Wagers

  datatype WagerSettlement = WagerSettlement(
    wager: Id,
    grade: Grade,
    stake: Money,
    profit: int,
    returned: int,
    divisor: int,
    postings: seq<Posting>)

  /** The part of a stake that rides at the accepted odds; the odd cent stays
      with the part that loses. */
  function DeadHeatSplit(stake: int, divisor: int): (r: (int, int))
    requires stake >= 0
    ensures r.0 + r.1 == stake && 0 <= r.0 <= stake
  {
    var winning := stake / (if divisor < 1 then 1 else divisor);
    DivisionFloor(stake, if divisor < 1 then 1 else divisor);
    (winning, stake - winning)
  }

  lemma DivisionFloor(stake: nat, divisor: int)
    requires divisor >= 1
    ensures 0 <= stake / divisor <= stake
    ensures divisor * (stake / divisor) <= stake < divisor * (stake / divisor) + divisor
  {
    DivisionFacts(stake, divisor);
    ProductMonotone(stake / divisor, 1, divisor);
  }

  function WinPostings(w: Wager, house: int, returned: int): seq<Posting> {
    var currency := w.stake.currency;
    [Posting(Escrow(currency), Money(-w.stake.cents, currency))]
    + (if house == 0 then [] else [Posting(House(currency), Money(house, currency))])
    + (if returned == 0 then [] else [Posting(FundingAccount(w), Money(returned, currency))])
  }

  function MovePostings(from: Account, to: Account, amount: Money): seq<Posting> {
    [Posting(from, Money(-amount.cents, amount.currency)), Posting(to, amount)]
  }

  /** settleWager: the amounts and postings of one accepted wager's settlement. */
  function SettleWager(w: Wager, grade: Grade, divisor: int): Result<WagerSettlement> {
    var d := if grade != Win || divisor < 1 then 1 else divisor;
    if w.state != Accepted then Err(Transition)
    else if !ValidStake(w.stake) then Err(InvalidStake)
    else
      var currency := w.stake.currency;
      match grade
      case Win =>
        var (winning, lost) := DeadHeatSplit(w.stake.cents, d);
        SettleWinWith(w, winning, lost, WinningProfit(w.odds, winning), d)
      case Loss =>
        Checked(w, Loss, 0, 0, d, MovePostings(Escrow(currency), House(currency), w.stake))
      case Push =>
        Checked(w, Push, 0, w.stake.cents, d, MovePostings(Escrow(currency), FundingAccount(w), w.stake))
      case Void =>
        Checked(w, Void, 0, w.stake.cents, d, MovePostings(Escrow(currency), FundingAccount(w), w.stake))
  }

  /** A stake smaller than the number of tied winners leaves nothing riding. */
  function WinningProfit(odds: int, winning: int): Result<int> {
    if winning == 0 then Ok(0) else Profit(odds, winning)
  }

  function SettleWinWith(w: Wager, winning: int, lost: int, profit: Result<int>, divisor: int): Result<WagerSettlement> {
    match profit
    case Err(e) => Err(e)
    case Ok(cents) => SettleWin(w, winning, lost, cents, divisor)
  }

  function SettleWin(w: Wager, winning: int, lost: int, profit: int, divisor: int): Result<WagerSettlement> {
    var returned :- Add(Money(winning, w.stake.currency), Money(profit, w.stake.currency));
    Checked(w, Win, profit, returned.cents, divisor, WinPostings(w, lost - profit, returned.cents))
  }

  /** Transaction.Validate, then the settlement record. */
  function Checked(w: Wager, grade: Grade, profit: int, returned: int, divisor: int, postings: seq<Posting>): Result<WagerSettlement> {
    if !ValidPostings(w.stake.currency, postings) then Err(Unbalanced)
    else Ok(WagerSettlement(w.id, grade, w.stake, profit, returned, divisor, postings))
  }

  /** The postings take the stake out of escrow and move `house` and `returned`
      to the house and the member, and nothing anywhere else. */
  ghost predicate Moves(postings: seq<Posting>, w: Wager, house: int, returned: int) {
    forall x :: NetTo(postings, x) == Movement(w, house, returned, x)
  }

  function Movement(w: Wager, house: int, returned: int, x: Account): int {
    if x == Escrow(w.stake.currency) then -w.stake.cents
    else if x == House(w.stake.currency) then house
    else if x == FundingAccount(w) then returned
    else 0
  }

  // ---- One settlement -----------------------------------------------------------

  lemma MoveIsValid(from: Account, to: Account, amount: Money)
    requires from != to && ValidStake(amount)
    ensures ValidPostings(amount.currency, MovePostings(from, to, amount))
    ensures NetTo(MovePostings(from, to, amount), from) == -amount.cents
    ensures NetTo(MovePostings(from, to, amount), to) == amount.cents
    ensures forall x :: x != from && x != to ==> NetTo(MovePostings(from, to, amount), x) == 0
  {
    var a, b := Posting(from, Money(-amount.cents, amount.currency)), Posting(to, amount);
    TwoPostingsValid(amount.currency, a, b);
    TwoPostings(a, b);
  }

  lemma WinIsValid(w: Wager, house: int, returned: int)
    requires ValidStake(w.stake) && 0 <= returned <= MAX_INT64
    requires house + returned == w.stake.cents
    ensures ValidPostings(w.stake.currency, WinPostings(w, house, returned))
    ensures 2 <= |WinPostings(w, house, returned)| <= 3
    ensures Moves(WinPostings(w, house, returned), w, house, returned)
  {
    var currency := w.stake.currency;
    var e := Posting(Escrow(currency), Money(-w.stake.cents, currency));
    var h := Posting(House(currency), Money(house, currency));
    var m := Posting(FundingAccount(w), Money(returned, currency));
    if house == 0 {
      assert WinPostings(w, house, returned) == [e, m];
      TwoPostingsValid(currency, e, m);
      TwoPostings(e, m);
    } else if returned == 0 {
      assert WinPostings(w, house, returned) == [e, h];
      TwoPostingsValid(currency, e, h);
      TwoPostings(e, h);
    } else {
      assert WinPostings(w, house, returned) == [e, h, m];
      ThreePostingsValid(currency, e, h, m);
      ThreePostings(e, h, m);
    }
  }

  /** The winnings of the part of the stake that rides fit int64. */
  predicate WinFits(w: Wager, divisor: int)
    requires w.stake.cents >= 0
  {
    var winning := DeadHeatSplit(w.stake.cents, divisor).0;
    winning == 0 || PaysWithin(w.odds, winning)
  }

  lemma WinningFits(odds: int, winning: nat)
    requires ValidOdds(odds) && winning <= MAX_INT64
    ensures WinningProfit(odds, winning).Ok? && winning + WinningProfit(odds, winning).value <= MAX_INT64
      <==> winning == 0 || PaysWithin(odds, winning)
  {
    if winning > 0 {
      ProfitExactly(odds, winning);
    }
  }

  lemma WinningProfitSign(odds: int, winning: nat)
    requires WinningProfit(odds, winning).Ok?
    ensures WinningProfit(odds, winning).value >= 0
  {
    if winning > 0 {
      ProfitIsNearestCent(odds, winning);
    }
  }

  lemma SettledWin(w: Wager, winning: nat, lost: nat, profit: nat, divisor: int)
    requires ValidStake(w.stake) && winning + lost == w.stake.cents
    ensures SettleWin(w, winning, lost, profit, divisor).Ok? <==> winning + profit <= MAX_INT64
    ensures SettleWin(w, winning, lost, profit, divisor).Ok? ==>
      var s := SettleWin(w, winning, lost, profit, divisor).value;
      && s.wager == w.id && s.stake == w.stake && s.grade == Win && s.divisor == divisor
      && s.profit == profit && s.returned == winning + profit
      && ValidPostings(w.stake.currency, s.postings) && |s.postings| <= 3
      && Moves(s.postings, w, w.stake.cents - s.returned, s.returned)
  {
    if winning + profit <= MAX_INT64 {
      WinIsValid(w, lost - profit, winning + profit);
    }
  }

  lemma SettledWinWith(w: Wager, winning: nat, lost: nat, profit: Result<int>, divisor: int)
    requires ValidStake(w.stake) && winning + lost == w.stake.cents && (profit.Ok? ==> profit.value >= 0)
    ensures var r := SettleWinWith(w, winning, lost, profit, divisor);
      && (r.Ok? <==> profit.Ok? && winning + profit.value <= MAX_INT64)
      && (r.Ok? ==> IsWin(w, winning + profit.value, r.value))
  {
    if profit.Ok? {
      SettledWin(w, winning, lost, profit.value, divisor);
    }
  }

  /** `s` settles `w` as a win that returns `returned`. */
  ghost predicate IsWin(w: Wager, returned: int, s: WagerSettlement) {
    && s.wager == w.id && s.stake == w.stake && s.grade == Win && s.returned == returned
    && ValidPostings(w.stake.currency, s.postings) && |s.postings| <= 3
    && Moves(s.postings, w, w.stake.cents - s.returned, s.returned)
  }

  lemma WinIsSettledWith(w: Wager, divisor: int)
    requires ValidStake(w.stake) && w.state == Accepted
    ensures var (winning, lost) := DeadHeatSplit(w.stake.cents, divisor);
      SettleWager(w, Win, divisor)
        == SettleWinWith(w, winning, lost, WinningProfit(w.odds, winning), if divisor < 1 then 1 else divisor)
  {
  }

  /** A settlement moves the stake out of escrow, `returned` to the member and
      the difference to the house, in two or three non-zero postings that the
      ledger accepts; it is refused only when the winnings overflow. */
  lemma SettlementMovesTheStake(w: Wager, grade: Grade, divisor: int)
    requires ValidWager(w) && w.state == Accepted
    ensures SettleWager(w, grade, divisor).Ok? <==> (grade == Win ==> WinFits(w, divisor))
    ensures SettleWager(w, grade, divisor).Ok? ==>
      var s := SettleWager(w, grade, divisor).value;
      && s.wager == w.id && s.stake == w.stake && s.grade == grade
      && ValidPostings(w.stake.currency, s.postings) && |s.postings| <= 3
      && s.returned >= 0
      && Moves(s.postings, w, w.stake.cents - s.returned, s.returned)
  {
    var currency := w.stake.currency;
    match grade
    case Win => WinMovesTheStake(w, divisor);
    case Loss => MoveIsValid(Escrow(currency), House(currency), w.stake);
    case Push => MoveIsValid(Escrow(currency), FundingAccount(w), w.stake);
    case Void => MoveIsValid(Escrow(currency), FundingAccount(w), w.stake);
  }

  lemma WinMovesTheStake(w: Wager, divisor: int)
    requires ValidStake(w.stake) && ValidOdds(w.odds) && w.state == Accepted
    ensures SettleWager(w, Win, divisor).Ok? <==> WinFits(w, divisor)
    ensures SettleWager(w, Win, divisor).Ok? ==>
      var s := SettleWager(w, Win, divisor).value; s.returned >= 0 && IsWin(w, s.returned, s)
  {
    var (winning, lost) := DeadHeatSplit(w.stake.cents, divisor);
    var profit := WinningProfit(w.odds, winning);
    if profit.Ok? {
      WinningProfitSign(w.odds, winning);
    }
    WinningFits(w.odds, winning);
    SettledWinWith(w, winning, lost, profit, if divisor < 1 then 1 else divisor);
    WinIsSettledWith(w, divisor);
  }

  /** What is returned by each grade, in the terms of the wager. */
  lemma SettlementReturns(w: Wager, grade: Grade, divisor: int)
    requires ValidWager(w) && w.state == Accepted && SettleWager(w, grade, divisor).Ok?
    ensures var s := SettleWager(w, grade, divisor).value;
      match grade
      case Win => divisor <= 1 ==> s.returned == w.stake.cents + w.potentialProfit
      case Loss => s.returned == 0
      case _ => s.returned == w.stake.cents
  {
    if grade == Win && divisor <= 1 {
      DivisionFacts(w.stake.cents, 1);
      assert DeadHeatSplit(w.stake.cents, divisor).0 == w.stake.cents;
    }
  }

  /** Splitting a win more ways never returns more. */
  lemma ReturnedShrinksWithDivisor(w: Wager, grade: Grade, few: int, many: int)
    requires ValidWager(w) && w.state == Accepted && few <= many
    requires SettleWager(w, grade, few).Ok?
    ensures SettleWager(w, grade, many).Ok?
    ensures SettleWager(w, grade, many).value.returned <= SettleWager(w, grade, few).value.returned
  {
    if grade == Win {
      WinShrinksWithDivisor(w, few, many);
    } else {
      assert SettleWager(w, grade, many) == SettleWager(w, grade, few);
    }
  }

  lemma WinShrinksWithDivisor(w: Wager, few: int, many: int)
    requires ValidWager(w) && w.state == Accepted && few <= many && SettleWager(w, Win, few).Ok?
    ensures SettleWager(w, Win, many).Ok?
    ensures SettleWager(w, Win, many).value.returned <= SettleWager(w, Win, few).value.returned
  {
    QuotientShrinks(w.stake.cents, if few < 1 then 1 else few, if many < 1 then 1 else many);
    var a, b := DeadHeatSplit(w.stake.cents, few).0, DeadHeatSplit(w.stake.cents, many).0;
    WinReturned(w, few);
    WinReturned(w, many);
    WinningProfitMonotone(w.odds, b, a);
  }

  lemma WinningProfitMonotone(odds: int, small: nat, large: nat)
    requires small <= large && WinningProfit(odds, large).Ok?
    ensures WinningProfit(odds, small).Ok?
    ensures WinningProfit(odds, small).value <= WinningProfit(odds, large).value
  {
    if small > 0 {
      ProfitMonotone(odds, small, large);
    } else {
      WinningProfitSign(odds, large);
    }
  }

  /** A win returns the riding part and its profit, when they fit int64. */
  predicate IsReturn(winning: int, profit: Result<int>, settled: Result<WagerSettlement>) {
    && (settled.Ok? <==> profit.Ok? && winning + profit.value <= MAX_INT64)
    && (settled.Ok? ==> settled.value.returned == winning + profit.value)
  }

  lemma WinReturned(w: Wager, divisor: int)
    requires ValidWager(w) && w.state == Accepted
    ensures var winning := DeadHeatSplit(w.stake.cents, divisor).0;
      IsReturn(winning, WinningProfit(w.odds, winning), SettleWager(w, Win, divisor))
  {
    var (winning, lost) := DeadHeatSplit(w.stake.cents, divisor);
    var profit := WinningProfit(w.odds, winning);
    if profit.Ok? {
      WinningProfitSign(w.odds, winning);
    }
    SettledWinWith(w, winning, lost, profit, if divisor < 1 then 1 else divisor);
    WinIsSettledWith(w, divisor);
  }

  /** What a win returns when `ways` selections tie: the whole cents of the stake
      that ride, and what those earn at the wager's line; a stake with less than a
      cent each returns nothing. */
  ghost predicate ReturnsTied(w: Wager, ways: int, returned: int) {
    exists riding :: IsRiding(w, ways, riding, returned)
  }

  predicate IsRiding(w: Wager, ways: int, riding: int, returned: int) {
    && 0 <= riding && ways * riding <= w.stake.cents < ways * riding + ways
    && (if riding == 0 then returned == 0 else returned >= riding && EarnsAt(w.odds, riding, returned - riding))
  }

  /** A win is paid on the whole cents that ride, the stake's share among the ways. */
  lemma TiedWinReturns(w: Wager, divisor: int, ways: int)
    requires ValidWager(w) && w.state == Accepted && SettleWager(w, Win, divisor).Ok?
    requires ways == if divisor < 1 then 1 else divisor
    ensures ReturnsTied(w, ways, SettleWager(w, Win, divisor).value.returned)
  {
    var riding := w.stake.cents / ways;
    DivisionFloor(w.stake.cents, ways);
    WinReturned(w, divisor);
    assert DeadHeatSplit(w.stake.cents, divisor).0 == riding;
    if riding > 0 {
      ProfitByLine(w.odds, riding);
      ProfitIsNearestCent(w.odds, riding);
    }
    assert IsRiding(w, ways, riding, SettleWager(w, Win, divisor).value.returned);
  }

  /** The riding cents are the only such number. */
  lemma RidingIsUnique(w: Wager, ways: nat, a: int, b: int, x: int, y: int)
    requires ways > 0 && IsRiding(w, ways, a, x) && IsRiding(w, ways, b, y)
    ensures a == b
  {
    QuotientIs(w.stake.cents, ways, a);
    QuotientIs(w.stake.cents, ways, b);
  }

  lemma QuotientShrinks(x: nat, few: int, many: int)
    requires 1 <= few <= many
    ensures x / many <= x / few
  {
    DivisionFloor(x, few);
    DivisionFloor(x, many);
    var q := x / many;
    ProductMonotone(q, few, many);
    if q >= x / few + 1 {
      ProductMonotone(few, x / few + 1, q);
    }
  }

  // ---- A whole market -------------------------------------------------------------

  predicate DistinctIds(ws: seq<Wager>) {
    forall i, j :: 0 <= i < j < |ws| ==> ws[i].id != ws[j].id
  }

  predicate SortedById(ws: seq<Wager>) {
    forall i, j :: 0 <= i < j < |ws| ==> ws[i].id < ws[j].id
  }

  /** The accepted wagers among `ws`, in input order. */
  function AcceptedOf(ws: seq<Wager>): seq<Wager> {
    if ws == [] then []
    else
      var last := ws[|ws| - 1];
      AcceptedOf(ws[..|ws| - 1]) + if last.state == Accepted then [last] else []
  }

  /** Insert into an ascending sequence. */
  function Insert(ws: seq<Wager>, w: Wager): seq<Wager> {
    if ws == [] || ws[|ws| - 1].id < w.id then ws + [w]
    else Insert(ws[..|ws| - 1], w) + [ws[|ws| - 1]]
  }

  function Sorted(ws: seq<Wager>): seq<Wager> {
    if ws == [] then [] else Insert(Sorted(ws[..|ws| - 1]), ws[|ws| - 1])
  }

  /** The settlements of `ws` in order, or the first refusal. */
  function SettleEach(ws: seq<Wager>, outcome: map<Id, Grade>, divisor: int): (r: Result<seq<WagerSettlement>>)
    ensures r.Ok? ==> |r.value| == |ws|
  {
    if ws == [] then Ok([])
    else
      var last := ws[|ws| - 1];
      var settled :- SettleEach(ws[..|ws| - 1], outcome, divisor);
      var one :- SettleOne(last, outcome, divisor);
      Ok(settled + [one])
  }

  function SettleOne(w: Wager, outcome: map<Id, Grade>, divisor: int): Result<WagerSettlement> {
    if w.selection !in outcome then Err(IncompleteOutcome) else SettleWager(w, outcome[w.selection], divisor)
  }

  datatype Totals = Totals(stake: int, profit: int, returned: int)

  function TotalsOf(ss: seq<WagerSettlement>): Totals {
    if ss == [] then Totals(0, 0, 0)
    else
      var t, last := TotalsOf(ss[..|ss| - 1]), ss[|ss| - 1];
      Totals(t.stake + last.stake.cents, t.profit + last.profit, t.returned + last.returned)
  }

  lemma AcceptedNext(ws: seq<Wager>, i: nat)
    requires i < |ws|
    ensures AcceptedOf(ws[..i + 1]) == if ws[i].state == Accepted then AcceptedOf(ws[..i]) + [ws[i]] else AcceptedOf(ws[..i])
  {
    assert ws[..i + 1][..i] == ws[..i];
  }

  lemma AcceptedStep(ws: seq<Wager>, i: nat)
    requires i < |ws|
    ensures Sorted(AcceptedOf(ws[..i + 1]))
         == if ws[i].state == Accepted then Insert(Sorted(AcceptedOf(ws[..i])), ws[i]) else Sorted(AcceptedOf(ws[..i]))
    ensures forall w :: w in ws[..i + 1] <==> w in ws[..i] || w == ws[i]
  {
    assert ws[..i + 1] == ws[..i] + [ws[i]];
    AcceptedNext(ws, i);
    SortedNext(AcceptedOf(ws[..i]), ws[i]);
  }

  lemma SortedNext(ws: seq<Wager>, w: Wager)
    ensures Sorted(ws + [w]) == Insert(Sorted(ws), w)
  {
    assert (ws + [w])[..|ws|] == ws;
  }

  /** splitAcceptedWagers: refuses a wager of another market, and orders the
      accepted ones by ID. */
  method SplitAcceptedWagers(market: Id, wagers: seq<Wager>) returns (accepted: Result<seq<Wager>>)
    ensures accepted == if forall w :: w in wagers ==> w.market == market then Ok(Sorted(AcceptedOf(wagers)))
                        else Err(Invalid)
  {
    var sorted := [];
    for i := 0 to |wagers|
      invariant sorted == Sorted(AcceptedOf(wagers[..i]))
      invariant forall w :: w in wagers[..i] ==> w.market == market
    {
      var wager := wagers[i];
      if wager.market != market {
        return Err(Invalid);
      }
      AcceptedStep(wagers, i);
      if wager.state == Accepted {
        sorted := Insert(sorted, wager);
      }
    }
    assert wagers[..|wagers|] == wagers;
    return Ok(sorted);
  }

  lemma SettleNext(ws: seq<Wager>, i: nat, outcome: map<Id, Grade>, divisor: int)
    requires i < |ws| && SettleEach(ws[..i], outcome, divisor).Ok?
    ensures var done, one := SettleEach(ws[..i], outcome, divisor).value, SettleOne(ws[i], outcome, divisor);
      SettleEach(ws[..i + 1], outcome, divisor) == if one.Ok? then Ok(done + [one.value]) else Err(one.error)
  {
    assert ws[..i + 1][..i] == ws[..i];
  }

  lemma OneRefused(ws: seq<Wager>, i: nat, outcome: map<Id, Grade>, divisor: int)
    requires i < |ws| && SettleEach(ws[..i], outcome, divisor).Ok? && SettleOne(ws[i], outcome, divisor).Err?
    ensures SettleEach(ws, outcome, divisor) == Err(SettleOne(ws[i], outcome, divisor).error)
  {
    SettleNext(ws, i, outcome, divisor);
    RefusalPropagates(ws, i + 1, outcome, divisor);
  }

  lemma TotalsOfNext(done: seq<WagerSettlement>, one: WagerSettlement)
    ensures TotalsOf(done + [one])
      == Totals(TotalsOf(done).stake + one.stake.cents, TotalsOf(done).profit + one.profit, TotalsOf(done).returned + one.returned)
  {
    assert (done + [one])[..|done|] == done;
  }

  /** SettleMarket's grading loop: every accepted wager once, and the totals. */
  method GradeWagers(market: Id, wagers: seq<Wager>, outcome: map<Id, Grade>, divisor: int)
    returns (settlements: Result<seq<WagerSettlement>>, totals: Totals)
    ensures settlements == if forall w :: w in wagers ==> w.market == market
                           then SettleEach(Sorted(AcceptedOf(wagers)), outcome, divisor) else Err(Invalid)
    ensures settlements.Ok? ==> totals == TotalsOf(settlements.value)
  {
    totals := Totals(0, 0, 0);
    var split := SplitAcceptedWagers(market, wagers);
    if split.Err? {
      return Err(split.error), totals;
    }
    var accepted := split.value;
    var done: seq<WagerSettlement> := [];
    for i := 0 to |accepted|
      invariant SettleEach(accepted[..i], outcome, divisor) == Ok(done)
      invariant totals == TotalsOf(done)
    {
      var wager := accepted[i];
      var one := if wager.selection !in outcome then Err(IncompleteOutcome)
                 else SettleWager(wager, outcome[wager.selection], divisor);
      if one.Err? {
        OneRefused(accepted, i, outcome, divisor);
        return Err(one.error), totals;
      }
      SettleNext(accepted, i, outcome, divisor);
      TotalsOfNext(done, one.value);
      done := done + [one.value];
      totals := Totals(totals.stake + one.value.stake.cents, totals.profit + one.value.profit,
                       totals.returned + one.value.returned);
    }
    assert accepted[..|accepted|] == accepted;
    return Ok(done), totals;
  }

  lemma {:induction false} RefusalPropagates(ws: seq<Wager>, n: nat, outcome: map<Id, Grade>, divisor: int)
    requires n <= |ws| && SettleEach(ws[..n], outcome, divisor).Err?
    ensures SettleEach(ws, outcome, divisor) == SettleEach(ws[..n], outcome, divisor)
    decreases |ws|
  {
    if n == |ws| {
      assert ws[..n] == ws;
    } else {
      assert ws[..|ws| - 1][..n] == ws[..n];
      RefusalPropagates(ws[..|ws| - 1], n, outcome, divisor);
    }
  }

  lemma {:induction false} SettleEachAt(ws: seq<Wager>, outcome: map<Id, Grade>, divisor: int, i: nat)
    requires SettleEach(ws, outcome, divisor).Ok? && i < |ws|
    ensures ws[i].selection in outcome
    ensures SettleWager(ws[i], outcome[ws[i].selection], divisor) == Ok(SettleEach(ws, outcome, divisor).value[i])
  {
    if i < |ws| - 1 {
      SettleEachAt(ws[..|ws| - 1], outcome, divisor, i);
    }
  }

  // ---- Order independence -----------------------------------------------------------

  lemma {:induction false} AcceptedContents(ws: seq<Wager>, w: Wager)
    ensures multiset(AcceptedOf(ws))[w] == if w.state == Accepted then multiset(ws)[w] else 0
  {
    if ws == [] {
    } else {
      var init, last := ws[..|ws| - 1], ws[|ws| - 1];
      AcceptedContents(init, w);
      assert ws == init + [last];
    }
  }

  lemma {:induction false} InsertContents(ws: seq<Wager>, w: Wager)
    ensures multiset(Insert(ws, w)) == multiset(ws) + multiset{w}
  {
    if ws == [] || ws[|ws| - 1].id < w.id {
    } else {
      InsertContents(ws[..|ws| - 1], w);
      assert ws == ws[..|ws| - 1] + [ws[|ws| - 1]];
    }
  }

  lemma {:induction false} InsertSorted(ws: seq<Wager>, w: Wager)
    requires SortedById(ws) && forall x :: x in ws ==> x.id != w.id
    ensures SortedById(Insert(ws, w))
  {
    if ws == [] || ws[|ws| - 1].id < w.id {
    } else {
      var init, last := ws[..|ws| - 1], ws[|ws| - 1];
      InsertSorted(init, w);
      InsertContents(init, w);
      forall x | x in Insert(init, w) ensures x.id < last.id {
        assert x in multiset(Insert(init, w));
      }
    }
  }

  lemma {:induction false} SortedContents(ws: seq<Wager>)
    ensures multiset(Sorted(ws)) == multiset(ws)
  {
    if ws == [] {
    } else {
      var init, last := ws[..|ws| - 1], ws[|ws| - 1];
      SortedContents(init);
      InsertContents(Sorted(init), last);
      assert ws == init + [last];
    }
  }

  lemma {:induction false} SortedAscends(ws: seq<Wager>)
    requires DistinctIds(ws)
    ensures SortedById(Sorted(ws))
  {
    if ws == [] {
    } else {
      var init, last := ws[..|ws| - 1], ws[|ws| - 1];
      SortedAscends(init);
      SortedContents(init);
      forall x | x in Sorted(init) ensures x.id != last.id {
        assert x in multiset(init);
      }
      InsertSorted(Sorted(init), last);
    }
  }

  lemma {:induction false} AcceptedDistinct(ws: seq<Wager>)
    requires DistinctIds(ws)
    ensures DistinctIds(AcceptedOf(ws))
  {
    if ws == [] {
    } else {
      var init, last := ws[..|ws| - 1], ws[|ws| - 1];
      AcceptedDistinct(init);
      forall x | x in AcceptedOf(init) ensures x.id != last.id {
        AcceptedContents(init, x);
        assert x in multiset(AcceptedOf(init));
        assert x in multiset(init);
      }
    }
  }

  lemma SameHead(a: seq<Wager>, b: seq<Wager>)
    requires SortedById(a) && SortedById(b) && multiset(a) == multiset(b) && a != []
    ensures b != [] && a[0] == b[0]
  {
    assert a[0] in multiset(b);
    assert b[0] in multiset(a);
    var i :| 0 <= i < |b| && b[i] == a[0];
    var j :| 0 <= j < |a| && a[j] == b[0];
    assert b[0].id <= b[i].id && a[0].id <= a[j].id;
    assert i == 0;
  }

  lemma TailContents(a: seq<Wager>)
    requires a != []
    ensures multiset(a[1..]) == multiset(a) - multiset{a[0]}
  {
    assert a == [a[0]] + a[1..];
  }

  /** Two ascending sequences of the same wagers are the same sequence. */
  lemma {:induction false} SortedUnique(a: seq<Wager>, b: seq<Wager>)
    requires SortedById(a) && SortedById(b) && multiset(a) == multiset(b)
    ensures a == b
  {
    if a == [] {
      assert |multiset(b)| == 0;
    } else {
      SameHead(a, b);
      TailContents(a);
      TailContents(b);
      SortedUnique(a[1..], b[1..]);
      assert a == [a[0]] + a[1..] && b == [b[0]] + b[1..];
    }
  }

  /** The settlements do not depend on the order the wagers were loaded in. */
  lemma SettlementIgnoresInputOrder(a: seq<Wager>, b: seq<Wager>, outcome: map<Id, Grade>, divisor: int)
    requires DistinctIds(a) && DistinctIds(b) && multiset(a) == multiset(b)
    ensures SettleEach(Sorted(AcceptedOf(a)), outcome, divisor) == SettleEach(Sorted(AcceptedOf(b)), outcome, divisor)
  {
    forall w ensures multiset(AcceptedOf(a))[w] == multiset(AcceptedOf(b))[w] {
      AcceptedContents(a, w);
      AcceptedContents(b, w);
    }
    AcceptedDistinct(a);
    AcceptedDistinct(b);
    SortedContents(AcceptedOf(a));
    SortedContents(AcceptedOf(b));
    SortedAscends(AcceptedOf(a));
    SortedAscends(AcceptedOf(b));
    SortedUnique(Sorted(AcceptedOf(a)), Sorted(AcceptedOf(b)));
  }

  // ---- Conservation over the market ---------------------------------------------------

  /** What a run of settlements moves into `account`. */
  function NetOfAll(ss: seq<WagerSettlement>, account: Account): int {
    if ss == [] then 0
    else NetOfAll(ss[..|ss| - 1], account) + NetTo(ss[|ss| - 1].postings, account)
  }

  /** Grading a market moves exactly total stake less total returned to the house. */
  lemma {:induction false} HouseTakesTheDifference(ws: seq<Wager>, outcome: map<Id, Grade>, divisor: int, currency: Currency)
    requires SettleEach(ws, outcome, divisor).Ok?
    requires forall w :: w in ws ==> ValidWager(w) && w.state == Accepted && w.stake.currency == currency
    ensures var ss := SettleEach(ws, outcome, divisor).value;
      && NetOfAll(ss, House(currency)) == TotalsOf(ss).stake - TotalsOf(ss).returned
      && NetOfAll(ss, Escrow(currency)) == -TotalsOf(ss).stake
  {
    if ws == [] {
    } else {
      var init, last := ws[..|ws| - 1], ws[|ws| - 1];
      HouseTakesTheDifference(init, outcome, divisor, currency);
      SettlementMovesTheStake(last, outcome[last.selection], divisor);
      var ss := SettleEach(ws, outcome, divisor).value;
      assert ss[..|ss| - 1] == SettleEach(init, outcome, divisor).value;
    }
  }

  // ---- Dead heats -----------------------------------------------------------------------

  /** deadHeatDivisor: how many ways a winning stake is split. */
  function DeadHeatDivisor(declared: bool, override: int, outcome: map<Id, Grade>): Result<int> {
    if !declared then
      if override > 1 then Err(Invalid) else Ok(1)
    else if override > 0 then
      if override < 2 then Err(Invalid) else Ok(override)
    else
      var winners := |WinningSides(outcome)|;
      if winners < 2 then Err(Invalid) else Ok(winners)
  }

  function WinningSides(outcome: map<Id, Grade>): set<Id> {
    set s | s in outcome && outcome[s] == Win
  }

  /** The divisor each selection's recorded outcome carries. */
  function RecordedDivisors(outcome: map<Id, Grade>, divisor: int): map<Id, int> {
    map s | s in outcome :: if outcome[s] == Win then divisor else 1
  }

  /** recordedOutcome: the largest divisor on the recorded rows. */
  method RecordedDivisor(rows: map<Id, int>) returns (divisor: int)
    ensures divisor >= 1 && (forall s :: s in rows ==> rows[s] <= divisor)
    ensures divisor == 1 || exists s :: s in rows && rows[s] == divisor
  {
    divisor := 1;
    var rest := rows.Keys;
    while rest != {}
      invariant rest <= rows.Keys && divisor >= 1
      invariant forall s :: s in rows && s !in rest ==> rows[s] <= divisor
      invariant divisor == 1 || exists s :: s in rows && rows[s] == divisor
      decreases rest
    {
      var s :| s in rest;
      rest := rest - {s};
      if rows[s] > divisor {
        divisor := rows[s];
      }
    }
  }

  /** Reading the divisor back off the recorded rows and declaring it again
      gives the divisor that was applied. */
  lemma RecordedDivisorReplays(declared: bool, outcome: map<Id, Grade>, applied: int, recorded: int)
    requires DeadHeatDivisor(declared, 0, outcome) == Ok(applied)
    requires recorded >= 1 && forall s :: s in outcome ==> RecordedDivisors(outcome, applied)[s] <= recorded
    requires recorded == 1 || exists s :: s in outcome && RecordedDivisors(outcome, applied)[s] == recorded
    ensures recorded == applied
    ensures DeadHeatDivisor(recorded > 1, recorded, outcome) == Ok(applied)
  {
    if declared {
      var winners := WinningSides(outcome);
      assert |winners| == applied >= 2;
      var s :| s in winners;
      assert RecordedDivisors(outcome, applied)[s] == applied;
    }
  }

  lemma {:induction false} DistinctCount(ids: seq<Id>, all: set<Id>)
    requires (forall i, j :: 0 <= i < j < |ids| ==> ids[i] != ids[j]) && forall id :: id in ids <==> id in all
    ensures |ids| == |all|
    decreases |ids|
  {
    if ids == [] {
      assert all == {};
    } else {
      var last, rest := ids[|ids| - 1], all - {ids[|ids| - 1]};
      assert last in ids;
      forall id ensures id in ids[..|ids| - 1] <==> id in rest {
      }
      DistinctCount(ids[..|ids| - 1], rest);
    }
  }

  /** A declared dead heat is split among the winners, of whom there must be two,
      or as many ways as the administrator says, which must be two; without one a
      win is not split. */
  lemma TieIsSplitAmongWinners(outcome: map<Id, Grade>, winners: seq<Id>, override: int)
    requires forall i, j :: 0 <= i < j < |winners| ==> winners[i] != winners[j]
    requires forall id :: id in winners <==> id in outcome && outcome[id] == Win
    ensures DeadHeatDivisor(true, 0, outcome) == if |winners| < 2 then Err(Invalid) else Ok(|winners|)
    ensures override > 0 ==> DeadHeatDivisor(true, override, outcome) == if override < 2 then Err(Invalid) else Ok(override)
    ensures DeadHeatDivisor(false, override, outcome) == if override > 1 then Err(Invalid) else Ok(1)
  {
    DistinctCount(winners, WinningSides(outcome));
  }
}
