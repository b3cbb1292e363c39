/** What the operations on parlays answer, in the terms of the request and the
    tables (internal/betting/parlay.go, internal/bettingpg/parlay.go): when each
    commits, the row it leaves, what it moves and what a settlement pays. */
module ParlayAnswers {
  import opened Results
  import opened Ledger
  import opened Wagers
  import opened Odds
  import opened Parlays
  import opened BookState
  import opened BookInvariant
  import opened BookSafety
  import opened BookSettlement
  import opened BookPayments
  import opened BookRuns
  import opened WagerAnswers

  // ---- Placement -----------------------------------------------------------------------

  /** A side of an open match market in this currency. */
  predicate IsLeg(b: Book, market: Id, selection: Id, currency: Currency) {
    && market in b.markets && selection in b.markets[market].lines
    && b.markets[market].isMatch && b.markets[market].state == Open && b.markets[market].currency == currency
  }

  /** The picks as legs at the lines they are offered at. */
  predicate AreLegs(b: Book, picks: seq<(Id, Id)>, currency: Currency, legs: seq<Leg>) {
    && |legs| == |picks|
    && (forall i :: 0 <= i < |picks| ==> IsLeg(b, picks[i].0, picks[i].1, currency))
    && (forall i :: 0 <= i < |picks| ==>
          IsLeg(b, picks[i].0, picks[i].1, currency)
          && legs[i] == Leg(picks[i].0, picks[i].1, b.markets[picks[i].0].lines[picks[i].1], None))
    && (forall i, j :: 0 <= i < j < |picks| ==> picks[i].0 != picks[j].0)
  }

  /** The legs can be written together: a line of at least even money that earns
      between a cent and the ceiling. */
  predicate CanWrite(legs: seq<Leg>, stake: int, maxPayout: int) {
    && 2 <= |legs| <= 8 && AllValidOdds(LegOdds(legs)) && JuicedProbability(LegOdds(legs), 350) <= 0.5
    && var line := American(JuicedProbability(LegOdds(legs), 350));
       && line > 0 && 50 <= stake * line <= MAX_INT64 && (maxPayout > 0 ==> 2 * (stake * line) < 200 * maxPayout + 100)
  }

  predicate IsNewParlay(b: Book, r: ParlayRequest) {
    r.id !in b.parlays && forall id :: id in b.parlays ==> b.parlays[id].user != r.user || b.parlays[id].key != r.key
  }

  lemma {:induction false} LegsAre(b: Book, r: ParlayRequest, legs: seq<Leg>)
    requires AreLegs(b, r.picks, r.stake.currency, legs)
    ensures PicksEligible(b, r.picks, r.stake.currency) && LegsFor(b, r.picks, r.stake.currency) == legs
  {
    forall i | 0 <= i < |r.picks| ensures PickEligible(b, r.picks[i], r.stake.currency) {
      assert IsLeg(b, r.picks[i].0, r.picks[i].1, r.stake.currency);
    }
  }

  /** A new parlay on distinct offered sides is stored exactly when it is admitted
      and its legs can be written together. */
  lemma {:induction false} PlaceParlayExactly(b: Book, r: ParlayRequest, admitted: bool, maxPayout: int, legs: seq<Leg>)
    requires IsNewParlay(b, r) && AreLegs(b, r.picks, r.stake.currency, legs)
    ensures PlaceParlay(b, r, admitted, maxPayout).Ok?
      <==> admitted && r.stake.cents > 0 && CanWrite(legs, r.stake.cents, maxPayout)
  {
    LegsAre(b, r, legs);
    if r.stake.cents > 0 {
      ParlayWrittenExactly(legs, r.stake.cents, 350, maxPayout);
    }
  }

  /** Any other picks are refused. */
  lemma OnlyLegsAreWritten(b: Book, r: ParlayRequest, admitted: bool, maxPayout: int)
    requires PlaceParlay(b, r, admitted, maxPayout).Ok?
    ensures exists legs :: AreLegs(b, r.picks, r.stake.currency, legs)
  {
    var legs := LegsFor(b, r.picks, r.stake.currency);
    forall i | 0 <= i < |r.picks| ensures IsLeg(b, r.picks[i].0, r.picks[i].1, r.stake.currency) {
      assert PickEligible(b, r.picks[i], r.stake.currency);
    }
    assert AreLegs(b, r.picks, r.stake.currency, legs);
  }

  /** It is stored as asked, pending, at the line nearest its juiced probability
      and with what the stake earns there; and nothing else changes. */
  lemma {:induction false} PlacedParlay(b: Book, r: ParlayRequest, admitted: bool, maxPayout: int, legs: seq<Leg>)
    requires IsNewParlay(b, r) && AreLegs(b, r.picks, r.stake.currency, legs)
    requires PlaceParlay(b, r, admitted, maxPayout).Ok?
    ensures IsStored(b, PlaceParlay(b, r, admitted, maxPayout).value, r, legs)
  {
    LegsAre(b, r, legs);
    ParlayWrittenExactly(legs, r.stake.cents, 350, maxPayout);
  }

  predicate IsStored(b: Book, after: Book, r: ParlayRequest, legs: seq<Leg>) {
    && r.id in after.parlays && after == b.(parlays := b.parlays[r.id := after.parlays[r.id]])
    && var p := after.parlays[r.id];
       && p.id == r.id && p.user == r.user && p.funding == r.funding && p.stake == r.stake && p.key == r.key
       && p.state == Pending && p.legs == legs
       && AllValidOdds(LegOdds(legs)) && legs != [] && p.odds == American(JuicedProbability(LegOdds(legs), 350))
       && p.odds > 0 && p.potentialProfit > 0 && EarnsAt(p.odds, p.stake.cents, p.potentialProfit)
  }

  /** A key its member has used stores nothing: it is answered exactly when the
      stored parlay has the stake, line and sides now asked for. */
  lemma {:induction false} UsedParlayKeyStoresNothing(b: Book, r: ParlayRequest, maxPayout: int, legs: seq<Leg>, id: Id)
    requires id in b.parlays && b.parlays[id].user == r.user && b.parlays[id].key == r.key
    requires forall x :: x in b.parlays && b.parlays[x].user == r.user && b.parlays[x].key == r.key ==> x == id
    requires AreLegs(b, r.picks, r.stake.currency, legs) && r.stake.cents > 0 && CanWrite(legs, r.stake.cents, maxPayout)
    ensures var p := b.parlays[id];
      PlaceParlay(b, r, true, maxPayout) ==
        if p.stake.cents == r.stake.cents && p.odds == American(JuicedProbability(LegOdds(legs), 350)) && |p.legs| == |legs|
           && forall i :: 0 <= i < |legs| ==> p.legs[i].selection == legs[i].selection
        then Ok(b) else Err(IdempotencyConflict)
  {
    LegsAre(b, r, legs);
    ParlayWrittenExactly(legs, r.stake.cents, 350, maxPayout);
  }

  // ---- Acceptance and rejection ----------------------------------------------------------

  predicate IsOnDecided(b: Book, leg: Leg) {
    leg.market in b.markets
    && var state := b.markets[leg.market].state; state == Settled || state == Voided || state == Cancelled || state == NoAction
  }

  predicate IsParlayPostable(b: Book, id: Id) {
    id in b.parlays && b.parlays[id].id == id && ValidStake(b.parlays[id].stake) && Post(b, ParlayAcceptanceTxn(b.parlays[id])).Ok?
  }

  lemma ParlayPosts(ops: seq<Op>, id: Id)
    requires id in Run(ops).parlays && Run(ops).parlays[id].state == Pending
    ensures IsParlayPostable(Run(ops), id)
  {
    RunIsHealthy(ops);
    ParlayPostsIn(Run(ops), id);
  }

  lemma ParlayPostsIn(b: Book, id: Id)
    requires Sound(b) && id in b.parlays && b.parlays[id].state == Pending
    ensures IsParlayPostable(b, id)
  {
    SoundParlayId(b, id);
    assert ParlayShape(b.markets, b.parlays[id]);
    ParlayAcceptanceKeepsLedger(b, b.parlays[id]);
  }

  /** On every reachable book a pending parlay is accepted exactly when none of its
      legs' markets is decided, unless that was counted earlier, and the balance it
      draws on, with the credit limit, covers the stake. */
  lemma AcceptParlayExactly(ops: seq<Op>, id: Id, creditLimit: int, late: bool)
    requires id in Run(ops).parlays && Run(ops).parlays[id].state == Pending
    ensures var b, p := Run(ops), Run(ops).parlays[id];
      AcceptParlay(b, id, creditLimit, late).Ok? <==>
        && (late || forall i :: 0 <= i < |p.legs| ==> !IsOnDecided(b, p.legs[i]))
        && Balance(b, Member(p.user, p.funding, p.stake.currency)) + creditLimit >= p.stake.cents
  {
    ParlayPosts(ops, id);
    AcceptParlayIn(Run(ops), id, creditLimit, late);
  }

  lemma AcceptParlayIn(b: Book, id: Id, creditLimit: int, late: bool)
    requires IsParlayPostable(b, id) && b.parlays[id].state == Pending
    ensures var p := b.parlays[id];
      AcceptParlay(b, id, creditLimit, late).Ok? <==>
        && (late || forall i :: 0 <= i < |p.legs| ==> !IsOnDecided(b, p.legs[i]))
        && Balance(b, Member(p.user, p.funding, p.stake.currency)) + creditLimit >= p.stake.cents
  {
    assert forall i :: 0 <= i < |b.parlays[id].legs| ==>
      (IsOnDecided(b, b.parlays[id].legs[i]) <==> LegDecided(b, b.parlays[id].legs[i]));
  }

  /** The row is accepted, its stake goes from the account it draws on to escrow,
      and that account is left no lower than the limit allows. */
  ghost predicate TakesParlayStake(b: Book, after: Book, id: Id, creditLimit: int) {
    && id in b.parlays && id in after.parlays
    && after == b.(parlays := b.parlays[id := after.parlays[id]], log := after.log)
    && var p := b.parlays[id];
       && after.parlays[id] == p.(state := Accepted)
       && Posts(b, after, AcceptanceKind, ParlayAcceptance(id), p.stake.currency)
       && Moved(b, after, Member(p.user, p.funding, p.stake.currency), Escrow(p.stake.currency), p.stake.cents)
       && Balance(after, Member(p.user, p.funding, p.stake.currency)) >= -creditLimit
  }

  lemma AcceptParlayMoves(ops: seq<Op>, id: Id, creditLimit: int, late: bool)
    requires id in Run(ops).parlays && Run(ops).parlays[id].state == Pending
    requires AcceptParlay(Run(ops), id, creditLimit, late).Ok?
    ensures TakesParlayStake(Run(ops), AcceptParlay(Run(ops), id, creditLimit, late).value, id, creditLimit)
  {
    ParlayPosts(ops, id);
    AcceptParlayMovesIn(Run(ops), id, creditLimit, late);
  }

  lemma AcceptParlayMovesIn(b: Book, id: Id, creditLimit: int, late: bool)
    requires IsParlayPostable(b, id) && b.parlays[id].state == Pending && AcceptParlay(b, id, creditLimit, late).Ok?
    ensures TakesParlayStake(b, AcceptParlay(b, id, creditLimit, late).value, id, creditLimit)
  {
    var p, after := b.parlays[id], AcceptParlay(b, id, creditLimit, late).value;
    PostedMoves(b, after, ParlayAcceptanceTxn(p), Member(p.user, p.funding, p.stake.currency), Escrow(p.stake.currency), p.stake);
  }

  /** An accepted parlay is accepted again for nothing; only a pending one is
      rejected, and only its state changes. */
  lemma ParlayStatesAnswer(b: Book, id: Id, creditLimit: int, late: bool)
    requires id in b.parlays && b.parlays[id].id == id
    ensures b.parlays[id].state == Accepted ==> AcceptParlay(b, id, creditLimit, late) == Ok(b)
    ensures b.parlays[id].state in {Rejected, Graded, Refunded} ==> AcceptParlay(b, id, creditLimit, late).Err?
    ensures RejectParlay(b, id).Ok? <==> b.parlays[id].state == Pending
    ensures RejectParlay(b, id).Ok? ==>
      RejectParlay(b, id).value == b.(parlays := b.parlays[id := b.parlays[id].(state := Rejected)])
  {
  }

  // ---- What a settlement pays ----------------------------------------------------------------

  /** What the member is paid: nothing after a loss, the stake when nothing won,
      and otherwise the stake and what it earns at the price of the winners, a lone
      one's own or the line nearest their juiced probability. */
  predicate IsPaidFor(p: Parlay, paid: int) {
    if exists i :: 0 <= i < |p.legs| && p.legs[i].result == Some(Loss) then paid == 0
    else if forall i :: 0 <= i < |p.legs| ==> p.legs[i].result != Some(Win) then paid == p.stake.cents
    else
      && AllValidOdds(Winners(p.legs)) && Winners(p.legs) != []
      && paid > p.stake.cents && EarnsAt(PriceOf(Winners(p.legs)), p.stake.cents, paid - p.stake.cents)
  }

  function PriceOf(winners: seq<int>): int
    requires AllValidOdds(winners) && winners != []
  {
    if |winners| == 1 then winners[0] else American(JuicedProbability(winners, 350))
  }

  lemma {:induction false} NoWinNoWinners(legs: seq<Leg>)
    ensures Winners(legs) == [] <==> forall i :: 0 <= i < |legs| ==> legs[i].result != Some(Win)
  {
    if legs != [] {
      var init := legs[..|legs| - 1];
      NoWinNoWinners(init);
      assert forall i :: 0 <= i < |init| ==> init[i] == legs[i];
      assert legs[|legs| - 1].result == Some(Win) ==> Winners(legs) != [];
    }
  }

  /** How a decided parlay that lost nothing is graded. */
  lemma GradesAsWinners(p: Parlay, outcome: ParlayOutcome)
    requires ValidParlay(p) && AllResolved(p.legs) && !HasLoss(p.legs) && GradeParlay(p, 350) == Ok(outcome)
    ensures Winners(p.legs) == [] ==> outcome.grade == Push && outcome.returned == p.stake.cents
    ensures Winners(p.legs) != [] ==>
      && AllValidOdds(Winners(p.legs)) && outcome.grade == Win && outcome.returned == p.stake.cents + outcome.profit <= MAX_INT64
      && outcome.profit >= 0 && EarnsAt(PriceOf(Winners(p.legs)), p.stake.cents, outcome.profit)
  {
    GradeResolved(p, 350);
    WinnersValid(p.legs);
    if Winners(p.legs) != [] {
      PricedWinners(Winners(p.legs), 350);
      ProfitByLine(PriceOf(Winners(p.legs)), p.stake.cents);
      ProfitIsNearestCent(PriceOf(Winners(p.legs)), p.stake.cents);
    }
  }

  lemma SettlementPays(p: Parlay, t: Txn)
    requires ValidParlay(p) && PaysParlay(p, t)
    ensures var paid := NetTo(t.postings, Member(p.user, p.funding, p.stake.currency));
      && IsPaidFor(p, paid)
      && NetTo(t.postings, Escrow(p.stake.currency)) == -p.stake.cents
      && NetTo(t.postings, House(p.stake.currency)) == p.stake.cents - paid
      && t.kind == (if paid == 0 then LossKind else if paid == p.stake.cents then RefundKind else WinKind)
  {
    NoWinNoWinners(p.legs);
    var outcome := Decide(p, 350).value.value;
    if HasLoss(p.legs) {
      EarlyLossIsFinal(p, p.(legs := Filled(p.legs)), 350);
    } else {
      GradesAsWinners(p, outcome);
    }
    ParlayPostingsMove(p, outcome);
    assert t.postings == ParlayPostings(p, outcome);
    assert NetTo(t.postings, ParlayAccount(p)) == ParlayMovement(p, outcome.returned, ParlayAccount(p));
    assert NetTo(t.postings, House(p.stake.currency)) == ParlayMovement(p, outcome.returned, House(p.stake.currency));
    assert NetTo(t.postings, Escrow(p.stake.currency)) == ParlayMovement(p, outcome.returned, Escrow(p.stake.currency));
  }

  /** Every parlay settlement on the ledger pays the member so, from escrow and the
      house. */
  lemma ParlayIsPaidByItsLegs(ops: seq<Op>, t: Txn)
    requires t in Run(ops).log && t.key.ParlaySettle?
    ensures t.key.parlay in Run(ops).parlays
    ensures var p := Run(ops).parlays[t.key.parlay];
      var paid := NetTo(t.postings, Member(p.user, p.funding, p.stake.currency));
      && IsPaidFor(p, paid)
      && NetTo(t.postings, Escrow(p.stake.currency)) == -p.stake.cents
      && NetTo(t.postings, House(p.stake.currency)) == p.stake.cents - paid
      && t.kind == (if paid == 0 then LossKind else if paid == p.stake.cents then RefundKind else WinKind)
  {
    RunIsHealthy(ops);
    PaidByLegsIn(Run(ops), t);
  }

  lemma PaidByLegsIn(b: Book, t: Txn)
    requires PaymentsSound(b) && Sound(b) && t in b.log && t.key.ParlaySettle?
    ensures t.key.parlay in b.parlays
    ensures var p := b.parlays[t.key.parlay];
      var paid := NetTo(t.postings, Member(p.user, p.funding, p.stake.currency));
      && IsPaidFor(p, paid)
      && NetTo(t.postings, Escrow(p.stake.currency)) == -p.stake.cents
      && NetTo(t.postings, House(p.stake.currency)) == p.stake.cents - paid
      && t.kind == (if paid == 0 then LossKind else if paid == p.stake.cents then RefundKind else WinKind)
  {
    var i :| 0 <= i < |b.log| && b.log[i] == t;
    assert Paid(b, b.log[i]);
    var p := b.parlays[t.key.parlay];
    assert ParlayShape(b.markets, p);
    SettlementPays(p, t);
  }
}
