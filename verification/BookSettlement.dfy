/** Settling, voiding and regrading a market keep the books sound, wager by
    wager and parlay by parlay. */
module BookSettlement {
  import opened Results
  import opened Ledger
  import opened Wagers
  import opened Settlement
  import opened Parlays
  import opened Totals
  import opened BookState
  import opened BookInvariant
  import opened BookSafety

  // ---- The settlements of one market ---------------------------------------------------

  lemma MovesInCurrency(from: Account, to: Account, amount: Money)
    requires from.currency == to.currency
    ensures InCurrency(from.currency, MovePostings(from, to, amount))
  {
  }

  lemma WinInCurrency(w: Wager, house: int, returned: int)
    ensures InCurrency(w.stake.currency, WinPostings(w, house, returned))
  {
  }

  lemma SettlementInCurrency(w: Wager, grade: Grade, divisor: int)
    requires SettleWager(w, grade, divisor).Ok?
    ensures InCurrency(w.stake.currency, SettleWager(w, grade, divisor).value.postings)
  {
    var currency := w.stake.currency;
    MovesInCurrency(Escrow(currency), House(currency), w.stake);
    MovesInCurrency(Escrow(currency), FundingAccount(w), w.stake);
    if grade == Win {
      var (winning, lost) := DeadHeatSplit(w.stake.cents, if divisor < 1 then 1 else divisor);
      var profit := WinningProfit(w.odds, winning).value;
      WinInCurrency(w, lost - profit, winning + profit);
    }
  }

  /** `s` is a settlement of `w` that the ledger accepts. */
  ghost predicate GoodSettlement(w: Wager, s: WagerSettlement) {
    && s.wager == w.id && s.stake == w.stake
    && ValidPostings(w.stake.currency, s.postings) && InCurrency(w.stake.currency, s.postings)
    && Moves(s.postings, w, w.stake.cents - s.returned, s.returned)
  }

  lemma SettlementIsGood(w: Wager, grade: Grade, divisor: int)
    requires ValidWager(w) && w.state == Accepted && SettleWager(w, grade, divisor).Ok?
    ensures GoodSettlement(w, SettleWager(w, grade, divisor).value)
    ensures SettleWager(w, grade, divisor).value.grade == grade
  {
    SettlementMovesTheStake(w, grade, divisor);
    SettlementInCurrency(w, grade, divisor);
  }

  lemma AcceptedRows(rows: seq<Wager>)
    requires DistinctIds(rows)
    ensures SortedById(Sorted(AcceptedOf(rows)))
    ensures forall w :: w in Sorted(AcceptedOf(rows)) <==> w in rows && w.state == Accepted
  {
    AcceptedDistinct(rows);
    SortedAscends(AcceptedOf(rows));
    SortedContents(AcceptedOf(rows));
    forall w ensures w in Sorted(AcceptedOf(rows)) <==> w in rows && w.state == Accepted {
      AcceptedContents(rows, w);
      assert w in Sorted(AcceptedOf(rows)) <==> w in multiset(Sorted(AcceptedOf(rows)));
      assert w in rows <==> w in multiset(rows);
    }
  }

  /** `ss` settles distinct accepted wagers of `b`. */
  ghost predicate Applicable(b: Book, ss: seq<WagerSettlement>) {
    DistinctWagers(ss) && forall i :: 0 <= i < |ss| ==> SettlesAccepted(b, ss[i])
  }

  ghost predicate SettlesAccepted(b: Book, s: WagerSettlement) {
    s.wager in b.wagers && b.wagers[s.wager].state == Accepted && GoodSettlement(b.wagers[s.wager], s)
  }

  /** The wager table after `ss`. */
  predicate IsSettledTable(before: map<Id, Wager>, ss: seq<WagerSettlement>, after: map<Id, Wager>) {
    && after.Keys == before.Keys
    && (forall i :: 0 <= i < |ss| ==> MovedOn(before, ss[i], after))
    && (forall id :: id in before ==> after[id] == before[id] || IsSettledIn(ss, id))
  }

  predicate MovedOn(before: map<Id, Wager>, s: WagerSettlement, after: map<Id, Wager>) {
    && s.wager in before && s.wager in after
    && after[s.wager] == before[s.wager].(state := NextState(s.grade))
  }

  predicate IsSettledIn(ss: seq<WagerSettlement>, id: Id) {
    exists i :: 0 <= i < |ss| && ss[i].wager == id
  }

  lemma OneSettlement(b: Book, s: WagerSettlement, version: nat)
    requires LedgerSound(b) && SettlesAccepted(b, s)
    ensures var t := SettleTxn(s, version);
      && Post(b, t).Ok?
      && LedgerSound(Put(Post(b, t).value, b.wagers[s.wager].(state := NextState(s.grade))))
  {
    var w, t := b.wagers[s.wager], SettleTxn(s, version);
    forall c ensures NetTo(t.postings, Escrow(c)) == if c == w.stake.currency then -w.stake.cents else 0 {
      assert NetTo(t.postings, Escrow(c)) == Movement(w, w.stake.cents - s.returned, s.returned, Escrow(c));
    }
    ReleaseKeepsLedger(b, w, t, w.(state := NextState(s.grade)));
  }

  /** The ledger rows of `ss`, in order. */
  function SettleTxns(ss: seq<WagerSettlement>, version: nat): (r: seq<Txn>)
    ensures |r| == |ss|
  {
    if ss == [] then [] else SettleTxns(ss[..|ss| - 1], version) + [SettleTxn(ss[|ss| - 1], version)]
  }

  lemma {:induction false} SettleTxnsAt(ss: seq<WagerSettlement>, version: nat, i: nat)
    requires i < |ss|
    ensures SettleTxns(ss, version)[i] == SettleTxn(ss[i], version)
  {
    if i < |ss| - 1 {
      SettleTxnsAt(ss[..|ss| - 1], version, i);
    }
  }

  predicate DistinctWagers(ss: seq<WagerSettlement>) {
    forall i, j :: 0 <= i < j < |ss| ==> ss[i].wager != ss[j].wager
  }

  /** Applying settlements appends their rows and touches nothing but the
      settled wagers' states. */
  lemma {:induction false} ApplyChanges(b: Book, ss: seq<WagerSettlement>, version: nat)
    requires ApplySettlements(b, ss, version).Ok? && DistinctWagers(ss)
    requires forall id :: id in b.wagers ==> b.wagers[id].id == id
    ensures var after := ApplySettlements(b, ss, version).value;
      && after == b.(wagers := after.wagers, log := b.log + SettleTxns(ss, version))
      && IsSettledTable(b.wagers, ss, after.wagers)
      && forall id :: id in after.wagers ==> after.wagers[id].id == id
  {
    if ss == [] {
      assert b.log + [] == b.log;
    } else {
      var init, s := ss[..|ss| - 1], ss[|ss| - 1];
      ApplyChanges(b, init, version);
      var mid := ApplySettlements(b, init, version).value;
      assert mid.wagers[s.wager] == b.wagers[s.wager];
      TableGrows(b.wagers, init, mid.wagers, s);
      assert ss == init + [s];
      assert b.log + SettleTxns(ss, version) == b.log + SettleTxns(init, version) + [SettleTxn(s, version)];
    }
  }

  /** Applying the settlements of distinct accepted wagers always succeeds. */
  lemma {:induction false} ApplyIsSafe(b: Book, ss: seq<WagerSettlement>, version: nat)
    requires LedgerSound(b) && Applicable(b, ss)
    ensures ApplySettlements(b, ss, version).Ok?
    ensures LedgerSound(ApplySettlements(b, ss, version).value)
  {
    if ss == [] {
    } else {
      var init, s := ss[..|ss| - 1], ss[|ss| - 1];
      ApplicableInit(b, ss);
      ApplyIsSafe(b, init, version);
      StillAccepted(b, ss, version);
      OneSettlement(ApplySettlements(b, init, version).value, s, version);
      AppliedLast(b, ss, version);
    }
  }

  lemma AppliedLast(b: Book, ss: seq<WagerSettlement>, version: nat)
    requires ss != [] && ApplySettlements(b, ss[..|ss| - 1], version).Ok?
    requires var mid, s := ApplySettlements(b, ss[..|ss| - 1], version).value, ss[|ss| - 1];
      s.wager in mid.wagers && Post(mid, SettleTxn(s, version)).Ok?
    ensures var mid, s := ApplySettlements(b, ss[..|ss| - 1], version).value, ss[|ss| - 1];
      ApplySettlements(b, ss, version)
        == Ok(Put(Post(mid, SettleTxn(s, version)).value, mid.wagers[s.wager].(state := NextState(s.grade))))
  {
  }

  lemma StillAccepted(b: Book, ss: seq<WagerSettlement>, version: nat)
    requires ss != [] && ApplySettlements(b, ss[..|ss| - 1], version).Ok?
    requires DistinctWagers(ss) && SettlesAccepted(b, ss[|ss| - 1])
    requires forall id :: id in b.wagers ==> b.wagers[id].id == id
    ensures SettlesAccepted(ApplySettlements(b, ss[..|ss| - 1], version).value, ss[|ss| - 1])
  {
    var init, s := ss[..|ss| - 1], ss[|ss| - 1];
    ApplyChanges(b, init, version);
    assert !IsSettledIn(init, s.wager);
  }

  lemma OwnIds(b: Book)
    requires LedgerSound(b)
    ensures forall id :: id in b.wagers ==> b.wagers[id].id == id
  {
  }

  lemma ApplicableInit(b: Book, ss: seq<WagerSettlement>)
    requires Applicable(b, ss) && ss != []
    ensures Applicable(b, ss[..|ss| - 1]) && SettlesAccepted(b, ss[|ss| - 1])
    ensures DistinctWagers(ss[..|ss| - 1]) && forall i :: 0 <= i < |ss| - 1 ==> ss[i].wager != ss[|ss| - 1].wager
  {
    var init := ss[..|ss| - 1];
    forall i | 0 <= i < |init| ensures SettlesAccepted(b, init[i]) {
      assert SettlesAccepted(b, ss[i]);
    }
    assert SettlesAccepted(b, ss[|ss| - 1]);
  }

  lemma TableGrows(before: map<Id, Wager>, init: seq<WagerSettlement>, mid: map<Id, Wager>, s: WagerSettlement)
    requires IsSettledTable(before, init, mid) && s.wager in before && mid[s.wager] == before[s.wager]
    requires before[s.wager].id == s.wager
    requires forall i :: 0 <= i < |init| ==> init[i].wager != s.wager
    ensures IsSettledTable(before, init + [s], mid[s.wager := before[s.wager].(state := NextState(s.grade))])
  {
    var ss, after := init + [s], mid[s.wager := before[s.wager].(state := NextState(s.grade))];
    assert ss[|init|] == s;
    forall id | id in before && after[id] != before[id] ensures IsSettledIn(ss, id) {
      if id != s.wager {
        assert IsSettledIn(init, id);
        var i :| 0 <= i < |init| && init[i].wager == id;
        assert ss[i].wager == id;
      }
    }
    forall i | 0 <= i < |ss| ensures MovedOn(before, ss[i], after) {
      if i < |init| {
        assert MovedOn(before, init[i], mid);
      }
    }
  }

  lemma SettledShapes(b: Book, ss: seq<WagerSettlement>, after: Book)
    requires ShapesSound(b) && IsSettledTable(b.wagers, ss, after.wagers)
    requires after.markets == b.markets && after.parlays == b.parlays
    ensures ShapesSound(after)
  {
    forall id | id in after.wagers ensures WagerShape(after.markets, after.wagers[id]) {
      assert WagerShape(b.markets, b.wagers[id]);
      if after.wagers[id] != b.wagers[id] {
        var i :| 0 <= i < |ss| && ss[i].wager == id;
        assert MovedOn(b.wagers, ss[i], after.wagers);
      }
    }
  }

  /** The settlements SettleMarket computes for the planned rows can be applied. */
  lemma PlannedSettlements(b: Book, market: Id, plan: Plan, grades: map<Id, Grade>, divisor: int)
    requires Sound(b) && IsPlan(b, market, plan)
    requires SettleEach(Sorted(AcceptedOf(plan.rows)), grades, divisor).Ok?
    ensures var ss := SettleEach(Sorted(AcceptedOf(plan.rows)), grades, divisor).value;
      && Applicable(b, ss)
      && (forall i :: 0 <= i < |ss| ==> SettledUnder(b, market, grades, divisor, ss[i]))
      && (forall id :: id in b.wagers && b.wagers[id].market == market && b.wagers[id].state == Accepted ==>
            IsSettledIn(ss, id))
  {
    var rows := Sorted(AcceptedOf(plan.rows));
    var ss := SettleEach(rows, grades, divisor).value;
    AcceptedRows(plan.rows);
    forall i | 0 <= i < |ss|
      ensures SettlesAccepted(b, ss[i]) && ss[i].wager == rows[i].id && SettledUnder(b, market, grades, divisor, ss[i])
    {
      SettleEachAt(rows, grades, divisor, i);
      assert rows[i] in plan.rows;
      assert WagerShape(b.markets, b.wagers[rows[i].id]);
      SettlementIsGood(rows[i], grades[rows[i].selection], divisor);
    }
    forall id | id in b.wagers && b.wagers[id].market == market && b.wagers[id].state == Accepted
      ensures IsSettledIn(ss, id)
    {
      assert b.wagers[id] in plan.rows;
      assert b.wagers[id] in rows;
      var i :| 0 <= i < |rows| && rows[i] == b.wagers[id];
      assert ss[i].wager == id;
    }
  }

  /** `s` is what SettleWager gives for its wager under these grades. */
  predicate SettledUnder(b: Book, market: Id, grades: map<Id, Grade>, divisor: int, s: WagerSettlement) {
    && s.wager in b.wagers && b.wagers[s.wager].market == market
    && b.wagers[s.wager].selection in grades
    && SettleWager(b.wagers[s.wager], grades[b.wagers[s.wager].selection], divisor) == Ok(s)
  }

  /** `ss` settles the accepted wagers of `market`, and only those. */
  predicate SettlesMarket(wagers: map<Id, Wager>, market: Id, ss: seq<WagerSettlement>) {
    && (forall i :: 0 <= i < |ss| ==> SettlesOn(wagers, market, ss[i]))
    && (forall id :: id in wagers && AcceptedOn(wagers[id], market) ==> IsSettledIn(ss, id))
  }

  predicate AcceptedOn(w: Wager, market: Id) {
    w.state == Accepted && w.market == market
  }

  predicate SettlesOn(wagers: map<Id, Wager>, market: Id, s: WagerSettlement) {
    s.wager in wagers && AcceptedOn(wagers[s.wager], market)
  }

  function GradeUnder(record: Record, selection: Id): Grade {
    if record.graded && selection in record.outcome then record.outcome[selection] else Void
  }

  function DivisorUnder(record: Record, selection: Id): int {
    if selection in record.divisors then record.divisors[selection] else 1
  }

  /** What a recorded outcome owes a wager, at the stake and odds on its row. */
  function Owed(w: Wager, record: Record): Result<WagerSettlement> {
    SettleWager(w.(state := Accepted), GradeUnder(record, w.selection), DivisorUnder(record, w.selection))
  }

  /** The recorded grade and divisor reproduce the settlement they came from. */
  lemma RecordOwes(w: Wager, rows: seq<Wager>, outcome: Option<map<Id, Grade>>, divisor: int)
    requires w.state == Accepted && w.selection in GradeMap(rows, outcome)
    requires outcome.None? ==> divisor == 1
    ensures Owed(w, MarketRecord(outcome, divisor)) == SettleWager(w, GradeMap(rows, outcome)[w.selection], divisor)
  {
    assert w.(state := Accepted) == w;
  }

  predicate OwedBy(wagers: map<Id, Wager>, record: Record, s: WagerSettlement) {
    s.wager in wagers && Owed(wagers[s.wager], record) == Ok(s)
  }

  predicate AllOwed(wagers: map<Id, Wager>, record: Record, ss: seq<WagerSettlement>) {
    forall i :: 0 <= i < |ss| ==> OwedBy(wagers, record, ss[i])
  }

  lemma SettlementRows(b: Book, market: Id, outcome: Option<map<Id, Grade>>, divisor: int, plan: Plan,
                       ss: seq<WagerSettlement>)
    requires Sound(b) && IsPlan(b, market, plan) && (outcome.None? ==> divisor == 1)
    requires SettleEach(Sorted(AcceptedOf(plan.rows)), GradeMap(plan.rows, outcome), divisor) == Ok(ss)
    ensures SettlesMarket(b.wagers, market, ss)
    ensures AllOwed(b.wagers, MarketRecord(outcome, divisor), ss)
  {
    PlannedSettlements(b, market, plan, GradeMap(plan.rows, outcome), divisor);
    forall i | 0 <= i < |ss|
      ensures SettlesOn(b.wagers, market, ss[i]) && OwedBy(b.wagers, MarketRecord(outcome, divisor), ss[i])
    {
      assert SettlesAccepted(b, ss[i]);
      assert SettledUnder(b, market, GradeMap(plan.rows, outcome), divisor, ss[i]);
      RecordOwes(b.wagers[ss[i].wager], plan.rows, outcome, divisor);
    }
  }

  // ---- Parlays on the market --------------------------------------------------------------

  lemma MarkedShape(markets: map<Id, Market>, p: Parlay, market: Id, outcome: Option<map<Id, Grade>>)
    requires ParlayShape(markets, p) && p.state != Pending
    ensures ParlayShape(markets, p.(legs := MarkLegs(p.legs, market, outcome)))
  {
    var marked := MarkLegs(p.legs, market, outcome);
    forall leg | leg in marked ensures ValidOdds(leg.odds) {
      var i :| 0 <= i < |marked| && marked[i] == leg;
      assert p.legs[i] in p.legs;
    }
    forall i | 0 <= i < |marked| ensures LegShape(markets, marked[i]) {
      assert LegShape(markets, p.legs[i]);
    }
  }

  lemma MarkingKeepsEscrow(b: Book, market: Id, outcome: Option<map<Id, Grade>>, c: Currency)
    requires EscrowMatches(b, c)
    ensures EscrowMatches(MarkParlays(b, market, outcome), c)
  {
    var after := MarkParlays(b, market, outcome);
    assert HeldParlays(after, c) == HeldParlays(b, c) && HeldWagers(after, c) == HeldWagers(b, c);
  }

  lemma MarkingKeepsRows(b: Book, market: Id, outcome: Option<map<Id, Grade>>)
    requires RowsSound(b)
    ensures RowsSound(MarkParlays(b, market, outcome))
  {
    var after := MarkParlays(b, market, outcome);
    forall id | id in after.parlays ensures after.parlays[id].id == id && ParlayBooks(after.log, after.parlays[id]) {
      assert ParlayBooks(b.log, b.parlays[id]);
    }
  }

  lemma MarkingKeepsLedger(b: Book, market: Id, outcome: Option<map<Id, Grade>>)
    requires LedgerSound(b)
    ensures LedgerSound(MarkParlays(b, market, outcome))
  {
    var after := MarkParlays(b, market, outcome);
    MarkingKeepsRows(b, market, outcome);
    forall c ensures EscrowMatches(after, c) {
      MarkingKeepsEscrow(b, market, outcome, c);
    }
    KeysKept(b, after);
  }

  lemma MarkingKeepsShapes(b: Book, market: Id, outcome: Option<map<Id, Grade>>)
    requires ShapesSound(b)
    ensures ShapesSound(MarkParlays(b, market, outcome))
  {
    var after := MarkParlays(b, market, outcome);
    forall id | id in after.parlays ensures ParlayShape(after.markets, after.parlays[id]) {
      assert ParlayShape(b.markets, b.parlays[id]);
      if IsAffected(b.parlays[id], market) {
        MarkedShape(b.markets, b.parlays[id], market, outcome);
      }
    }
    forall id | id in after.wagers ensures WagerShape(after.markets, after.wagers[id]) {
      assert WagerShape(b.markets, b.wagers[id]);
    }
  }

  /** A graded parlay's amounts are those ParlayPostingsMove asks for. */
  lemma GradedAmounts(p: Parlay, juice: int)
    requires ValidStake(p.stake) && GradeParlay(p, juice).Ok?
    ensures var outcome := GradeParlay(p, juice).value;
      match outcome.grade
      case Win => outcome.profit >= 0 && outcome.returned == p.stake.cents + outcome.profit <= MAX_INT64
      case Loss => outcome.returned == 0
      case _ => outcome.returned == p.stake.cents
  {
    var scan := ScanLegs(p.legs);
    if scan.Surviving? && scan.odds != [] {
      ProfitIsNearestCent(SurvivingPrice(scan.odds, juice).value, p.stake.cents);
    }
  }

  lemma SettledParlayMoves(p: Parlay, outcome: ParlayOutcome)
    requires ValidStake(p.stake) && SettleParlay(p, DEFAULT_JUICE) == Some(Ok(outcome))
    ensures GoodTxn(ParlaySettleTxn(p, outcome))
    ensures forall x :: NetTo(ParlayPostings(p, outcome), x) == ParlayMovement(p, outcome.returned, x)
  {
    if HasLoss(p.legs) {
      GradedAmounts(p.(legs := Filled(p.legs)), DEFAULT_JUICE);
    } else {
      GradedAmounts(p, DEFAULT_JUICE);
    }
    ParlayPostingsMove(p, outcome);
  }

  lemma ParlayReleaseBooks(log: seq<Txn>, p: Parlay, t: Txn)
    requires ParlayBooks(log, p) && p.state == Accepted && t.key == ParlaySettle(p.id)
    ensures ParlayBooks(log + [t], p.(state := Graded))
  {
    ParlayTalliesAfter(log, t, p.id);
  }

  lemma GradedParlayKeepsLedger(b: Book, p: Parlay, outcome: ParlayOutcome)
    requires LedgerSound(b) && p.id in b.parlays && b.parlays[p.id] == p && p.state == Accepted
    requires ValidStake(p.stake) && SettleParlay(p, DEFAULT_JUICE) == Some(Ok(outcome))
    ensures var t := ParlaySettleTxn(p, outcome);
      Post(b, t).Ok? && LedgerSound(PutParlay(Post(b, t).value, p.(state := Graded)))
  {
    var t := ParlaySettleTxn(p, outcome);
    SettledParlayMoves(p, outcome);
    ParlayKeysAbsent(b.log, p);
    ParlayReleaseBooks(b.log, p, t);
    ParlayStep(b, t, p.(state := Graded));
  }

  lemma OneParlay(b: Book, id: Id)
    requires Sound(b) && id in b.parlays && b.parlays[id].state == Accepted
    requires SettleParlayIfComplete(b, id).Ok?
    ensures Sound(SettleParlayIfComplete(b, id).value)
  {
    var p := b.parlays[id];
    assert ParlayShape(b.markets, p);
    match SettleParlay(p, DEFAULT_JUICE)
    case Some(Ok(outcome)) =>
      GradedParlayKeepsLedger(b, p, outcome);
      ParlayStateShape(b.markets, p, Graded);
      ShapesAfterPutParlay(Post(b, ParlaySettleTxn(p, outcome)).value, p.(state := Graded));
    case None =>
      assert b.parlays == b.parlays[id := p];
    case _ =>
  }

  /** The parlay table after visiting `order`: decided parlays are graded. */
  predicate IsVisitedTable(before: map<Id, Parlay>, order: seq<Id>, after: map<Id, Parlay>) {
    after.Keys == before.Keys && forall id :: id in before ==> Visited(before[id], id in order, after[id])
  }

  predicate Visited(before: Parlay, visited: bool, after: Parlay) {
    after == if visited && Decide(before, DEFAULT_JUICE).Some? then before.(state := Graded) else before
  }

  /** `t` is the settlement of `p` as its legs grade. */
  predicate PaysParlay(p: Parlay, t: Txn) {
    match SettleParlay(p, DEFAULT_JUICE)
    case Some(Ok(outcome)) => t == ParlaySettleTxn(p, outcome)
    case _ => false
  }

  predicate PaysOneOf(parlays: map<Id, Parlay>, order: seq<Id>, t: Txn) {
    && t.key.ParlaySettle? && t.key.parlay in order && t.key.parlay in parlays
    && PaysParlay(parlays[t.key.parlay], t)
  }

  /** Every row added pays a parlay of `order`. */
  predicate PostsParlaysOnly(before: seq<Txn>, parlays: map<Id, Parlay>, order: seq<Id>, after: seq<Txn>) {
    before <= after && forall i :: |before| <= i < |after| ==> PaysOneOf(parlays, order, after[i])
  }

  predicate DistinctOrder(order: seq<Id>) {
    forall i, j :: 0 <= i < j < |order| ==> order[i] != order[j]
  }

  /** One visit grades a decided parlay with one transaction, and changes nothing else. */
  lemma OneVisit(b: Book, id: Id)
    requires SettleParlayIfComplete(b, id).Ok?
    requires id in b.parlays && b.parlays[id].id == id
    ensures var after := SettleParlayIfComplete(b, id).value;
      && after == b.(parlays := after.parlays, log := after.log)
      && (after.log == b.log || (|after.log| == |b.log| + 1 && after.log == b.log + [after.log[|b.log|]] && PaysOneOf(b.parlays, [id], after.log[|b.log|])))
      && id in after.parlays && after.parlays == b.parlays[id := after.parlays[id]]
      && Visited(b.parlays[id], true, after.parlays[id])
  {
    assert b.parlays == b.parlays[id := b.parlays[id]];
  }

  lemma VisitedTableGrows(before: map<Id, Parlay>, init: seq<Id>, mid: map<Id, Parlay>, last: Id, next: Parlay)
    requires IsVisitedTable(before, init, mid) && last in before && last !in init
    requires Visited(before[last], true, next)
    ensures mid[last] == before[last]
    ensures IsVisitedTable(before, init + [last], mid[last := next])
  {
    assert Visited(before[last], last in init, mid[last]);
    forall id | id in before ensures Visited(before[id], id in init + [last], mid[last := next][id]) {
      assert Visited(before[id], id in init, mid[id]);
    }
  }

  lemma VisitedLogGrows(before: seq<Txn>, parlays: map<Id, Parlay>, init: seq<Id>, mid: seq<Txn>, last: Id, after: seq<Txn>)
    requires PostsParlaysOnly(before, parlays, init, mid)
    requires after == mid || (|after| == |mid| + 1 && after == mid + [after[|mid|]] && PaysOneOf(parlays, [last], after[|mid|]))
    ensures PostsParlaysOnly(before, parlays, init + [last], after)
  {
    forall i | |before| <= i < |after| ensures PaysOneOf(parlays, init + [last], after[i]) {
      if i < |mid| {
        assert after[i] == mid[i] && PaysOneOf(parlays, init, mid[i]);
      }
    }
  }

  lemma {:induction false} VisitedInit(b: Book, order: seq<Id>)
    requires SettleParlays(b, order).Ok? && order != []
    ensures SettleParlays(b, order[..|order| - 1]).Ok?
    ensures SettleParlays(b, order) == SettleParlayIfComplete(SettleParlays(b, order[..|order| - 1]).value, order[|order| - 1])
  {
  }

  predicate AllPresent(parlays: map<Id, Parlay>, order: seq<Id>) {
    forall id :: id in order ==> id in parlays && parlays[id].id == id
  }

  /** What visiting `order` did to the book. */
  predicate VisitedBook(b: Book, order: seq<Id>, after: Book) {
    && after == b.(parlays := after.parlays, log := after.log)
    && PostsParlaysOnly(b.log, b.parlays, order, after.log) && IsVisitedTable(b.parlays, order, after.parlays)
  }

  lemma VisitOneMore(b: Book, init: seq<Id>, mid: Book, last: Id)
    requires VisitedBook(b, init, mid) && last !in init && AllPresent(b.parlays, [last])
    requires SettleParlayIfComplete(mid, last).Ok?
    ensures VisitedBook(b, init + [last], SettleParlayIfComplete(mid, last).value)
  {
    assert last in [last];
    assert Visited(b.parlays[last], last in init, mid.parlays[last]);
    OneVisit(mid, last);
    var after := SettleParlayIfComplete(mid, last).value;
    VisitedTableGrows(b.parlays, init, mid.parlays, last, after.parlays[last]);
    VisitedLogGrows(b.log, b.parlays, init, mid.log, last, after.log);
  }

  lemma {:induction false} VisitingChanges(b: Book, order: seq<Id>)
    requires SettleParlays(b, order).Ok? && DistinctOrder(order) && AllPresent(b.parlays, order)
    ensures VisitedBook(b, order, SettleParlays(b, order).value)
  {
    if order == [] {
    } else {
      var init, last := order[..|order| - 1], order[|order| - 1];
      assert order == init + [last];
      VisitedInit(b, order);
      VisitingChanges(b, init);
      assert last !in init;
      VisitOneMore(b, init, SettleParlays(b, init).value, last);
    }
  }

  lemma {:induction false} VisitingIsSafe(b: Book, order: seq<Id>)
    requires Sound(b) && SettleParlays(b, order).Ok? && DistinctOrder(order)
    requires forall id :: id in order ==> id in b.parlays && b.parlays[id].state == Accepted
    ensures Sound(SettleParlays(b, order).value)
  {
    if order == [] {
    } else {
      var init, last := order[..|order| - 1], order[|order| - 1];
      VisitingIsSafe(b, init);
      OwnParlayIds(b);
      VisitingChanges(b, init);
      var mid := SettleParlays(b, init).value;
      assert Visited(b.parlays[last], last in init, mid.parlays[last]);
      OneParlay(mid, last);
    }
  }

  lemma OwnParlayIds(b: Book)
    requires LedgerSound(b)
    ensures forall id :: id in b.parlays ==> b.parlays[id].id == id
  {
  }

  // ---- The whole settlement -------------------------------------------------------------------

  function Decided(b: Book, market: Id, outcome: Option<map<Id, Grade>>): map<Id, Market>
    requires market in b.markets
  {
    b.markets[market := b.markets[market].(state := if outcome.Some? then Settled else Voided)]
  }

  function Recorded(b: Book, market: Id, outcome: Option<map<Id, Grade>>, divisor: int): map<Id, seq<Record>> {
    b.records[market := Records(b, market) + [MarketRecord(outcome, divisor)]]
  }

  function MarkedParlay(p: Parlay, market: Id, outcome: Option<map<Id, Grade>>): Parlay {
    if IsAffected(p, market) then p.(legs := MarkLegs(p.legs, market, outcome)) else p
  }

  /** A parlay's row after its market settles: marked, and graded once decided. */
  predicate IsNextParlay(p: Parlay, market: Id, outcome: Option<map<Id, Grade>>, next: Parlay) {
    Visited(MarkedParlay(p, market, outcome), IsAffected(p, market), next)
  }

  predicate ParlaysSettled(before: map<Id, Parlay>, market: Id, outcome: Option<map<Id, Grade>>, after: map<Id, Parlay>) {
    after.Keys == before.Keys && forall id :: id in before ==> IsNextParlay(before[id], market, outcome, after[id])
  }

  predicate PaysAffected(parlays: map<Id, Parlay>, market: Id, outcome: Option<map<Id, Grade>>, t: Txn) {
    && t.key.ParlaySettle? && t.key.parlay in parlays && IsAffected(parlays[t.key.parlay], market)
    && PaysParlay(MarkedParlay(parlays[t.key.parlay], market, outcome), t)
  }

  predicate PaysOnlyAffected(parlays: map<Id, Parlay>, market: Id, outcome: Option<map<Id, Grade>>, more: seq<Txn>) {
    forall i :: 0 <= i < |more| ==> PaysAffected(parlays, market, outcome, more[i])
  }

  /** Row `k` of a settlement: one per settled wager, then the decided parlays. */
  predicate IsSettlementRow(b: Book, market: Id, outcome: Option<map<Id, Grade>>, ss: seq<WagerSettlement>, k: nat, t: Txn) {
    if k < |ss| then t == SettleTxn(ss[k], |Records(b, market)| + 1) else PaysAffected(b.parlays, market, outcome, t)
  }

  predicate SettlementLog(b: Book, market: Id, outcome: Option<map<Id, Grade>>, ss: seq<WagerSettlement>, posted: seq<Txn>) {
    |ss| <= |posted| && forall k :: 0 <= k < |posted| ==> IsSettlementRow(b, market, outcome, ss, k, posted[k])
  }

  lemma LogRows(b: Book, market: Id, outcome: Option<map<Id, Grade>>, ss: seq<WagerSettlement>, mid: seq<Txn>, more: seq<Txn>)
    returns (posted: seq<Txn>)
    requires mid == b.log + SettleTxns(ss, |Records(b, market)| + 1)
    requires PaysOnlyAffected(b.parlays, market, outcome, more)
    ensures mid + more == b.log + posted
    ensures SettlementLog(b, market, outcome, ss, posted)
  {
    posted := SettleTxns(ss, |Records(b, market)| + 1) + more;
    Associative(b.log, SettleTxns(ss, |Records(b, market)| + 1), more);
    RowsInOrder(b, market, outcome, ss, more);
  }

  lemma RowsInOrder(b: Book, market: Id, outcome: Option<map<Id, Grade>>, ss: seq<WagerSettlement>, more: seq<Txn>)
    requires PaysOnlyAffected(b.parlays, market, outcome, more)
    ensures SettlementLog(b, market, outcome, ss, SettleTxns(ss, |Records(b, market)| + 1) + more)
  {
    var version := |Records(b, market)| + 1;
    var posted := SettleTxns(ss, version) + more;
    forall k | 0 <= k < |posted| ensures IsSettlementRow(b, market, outcome, ss, k, posted[k]) {
      if k < |ss| {
        SettleTxnsAt(ss, version, k);
      } else {
        assert PaysAffected(b.parlays, market, outcome, more[k - |ss|]);
      }
    }
  }

  /** What settleWith leaves, table by table: `ss` graded the market's wagers. */
  ghost predicate IsSettled(b: Book, market: Id, outcome: Option<map<Id, Grade>>, divisor: int,
                            ss: seq<WagerSettlement>, posted: seq<Txn>, after: Book) {
    && market in b.markets
    && SettlesMarket(b.wagers, market, ss) && AllOwed(b.wagers, MarketRecord(outcome, divisor), ss)
    && IsSettledTable(b.wagers, ss, after.wagers)
    && after.markets == Decided(b, market, outcome)
    && after.records == Recorded(b, market, outcome, divisor)
    && LegsCovered(b, market, outcome)
    && ParlaysSettled(b.parlays, market, outcome, after.parlays)
    && after.log == b.log + posted && SettlementLog(b, market, outcome, ss, posted)
  }

  lemma PlannedParlays(b: Book, market: Id, outcome: Option<map<Id, Grade>>, plan: Plan, after: map<Id, Parlay>)
    requires IsPlan(b, market, plan)
    requires IsVisitedTable(MarkParlays(b, market, outcome).parlays, plan.parlays, after)
    ensures ParlaysSettled(b.parlays, market, outcome, after)
  {
    var marked := MarkParlays(b, market, outcome).parlays;
    forall id | id in b.parlays ensures IsNextParlay(b.parlays[id], market, outcome, after[id]) {
      assert Visited(marked[id], id in plan.parlays, after[id]);
      assert id in plan.parlays <==> id in Affected(b, market);
    }
  }

  lemma PlannedPayments(b: Book, market: Id, outcome: Option<map<Id, Grade>>, plan: Plan, before: seq<Txn>, after: seq<Txn>)
    requires IsPlan(b, market, plan)
    requires PostsParlaysOnly(before, MarkParlays(b, market, outcome).parlays, plan.parlays, after)
    ensures after == before + after[|before|..]
    ensures PaysOnlyAffected(b.parlays, market, outcome, after[|before|..])
  {
    var marked, more := MarkParlays(b, market, outcome).parlays, after[|before|..];
    forall i | 0 <= i < |more| ensures PaysAffected(b.parlays, market, outcome, more[i]) {
      assert PaysOneOf(marked, plan.parlays, after[|before| + i]);
      assert more[i].key.parlay in Affected(b, market);
    }
  }

  /** The book before its parlays are visited. */
  function Marked(b: Book, market: Id, outcome: Option<map<Id, Grade>>, divisor: int): Book
    requires market in b.markets
  {
    MarkParlays(b.(markets := Decided(b, market, outcome), records := Recorded(b, market, outcome, divisor)),
                market, outcome)
  }

  lemma FinishVisits(b: Book, market: Id, outcome: Option<map<Id, Grade>>, divisor: int, order: seq<Id>)
    requires Finish(b, market, outcome, divisor, order).Ok?
    ensures market in b.markets
    ensures LegsCovered(b, market, outcome)
    ensures Finish(b, market, outcome, divisor, order) == SettleParlays(Marked(b, market, outcome, divisor), order)
  {
  }

  lemma MarkedIsSafe(b: Book, market: Id, outcome: Option<map<Id, Grade>>, divisor: int)
    requires Sound(b) && market in b.markets
    ensures Sound(Marked(b, market, outcome, divisor))
  {
    var decided := b.(markets := Decided(b, market, outcome), records := Recorded(b, market, outcome, divisor));
    MarketOperation(b, decided.markets, decided.records);
    MarkingKeepsLedger(decided, market, outcome);
    MarkingKeepsShapes(decided, market, outcome);
  }

  lemma AffectedOrder(b: Book, market: Id, outcome: Option<map<Id, Grade>>, plan: Plan, id: Id)
    requires IsPlan(b, market, plan) && id in plan.parlays
    ensures id in b.parlays && MarkParlays(b, market, outcome).parlays[id].state == Accepted
  {
    assert id in Affected(b, market);
  }

  lemma PostedAll(b: Book, graded: Result<seq<WagerSettlement>>, version: nat)
    requires PostAll(b, graded, version).Ok?
    ensures graded.Ok? && ApplySettlements(b, graded.value, version) == PostAll(b, graded, version)
  {
  }

  lemma GradeStages(b: Book, market: Id, outcome: Option<map<Id, Grade>>, divisor: int, rows: seq<Wager>)
    returns (ss: seq<WagerSettlement>, settled: Book)
    requires GradeRows(b, market, outcome, divisor, rows).Ok?
    ensures SettleEach(Sorted(AcceptedOf(rows)), GradeMap(rows, outcome), divisor) == Ok(ss)
    ensures ApplySettlements(b, ss, |Records(b, market)| + 1) == Ok(settled)
    ensures GradeRows(b, market, outcome, divisor, rows) == Ok(settled)
  {
    var graded := SettleEach(Sorted(AcceptedOf(rows)), GradeMap(rows, outcome), divisor);
    PostedAll(b, graded, |Records(b, market)| + 1);
    ss := graded.value;
    settled := GradeRows(b, market, outcome, divisor, rows).value;
  }

  /** How settleWith runs: settlements, then the market, then its parlays. */
  lemma SettleWithStages(b: Book, market: Id, outcome: Option<map<Id, Grade>>, regrade: bool,
                         declared: bool, override: int, plan: Plan)
    returns (divisor: int, ss: seq<WagerSettlement>, settled: Book)
    requires SettleWith(b, market, outcome, regrade, declared, override, plan).Ok?
    ensures market in b.markets
    ensures if outcome.Some? then DeadHeatDivisor(declared, override, outcome.value) == Ok(divisor) else divisor == 1
    ensures outcome.Some? ==> outcome.value.Keys == b.markets[market].lines.Keys
    ensures SettleEach(Sorted(AcceptedOf(plan.rows)), GradeMap(plan.rows, outcome), divisor) == Ok(ss)
    ensures ApplySettlements(b, ss, |Records(b, market)| + 1) == Ok(settled)
    ensures SettleWith(b, market, outcome, regrade, declared, override, plan)
         == Finish(settled, market, outcome, divisor, plan.parlays)
  {
    divisor := if outcome.Some? then DeadHeatDivisor(declared, override, outcome.value).value else 1;
    ss, settled := GradeStages(b, market, outcome, divisor, plan.rows);
  }

  lemma SettledBookIsSafe(b: Book, market: Id, outcome: Option<map<Id, Grade>>, divisor: int, plan: Plan,
                          ss: seq<WagerSettlement>, settled: Book)
    requires Sound(b) && IsPlan(b, market, plan)
    requires SettleEach(Sorted(AcceptedOf(plan.rows)), GradeMap(plan.rows, outcome), divisor) == Ok(ss)
    requires ApplySettlements(b, ss, |Records(b, market)| + 1) == Ok(settled)
    ensures Sound(settled)
    ensures IsSettledTable(b.wagers, ss, settled.wagers)
    ensures settled == b.(wagers := settled.wagers, log := b.log + SettleTxns(ss, |Records(b, market)| + 1))
  {
    PlannedSettlements(b, market, plan, GradeMap(plan.rows, outcome), divisor);
    ApplyIsSafe(b, ss, |Records(b, market)| + 1);
    OwnIds(b);
    ApplyChanges(b, ss, |Records(b, market)| + 1);
    SettledShapes(b, ss, settled);
  }

  /** settleWith keeps the books sound. */
  lemma SettleWithIsSafe(b: Book, market: Id, outcome: Option<map<Id, Grade>>, regrade: bool,
                         declared: bool, override: int, plan: Plan)
    requires Sound(b) && IsPlan(b, market, plan)
    requires SettleWith(b, market, outcome, regrade, declared, override, plan).Ok?
    ensures Sound(SettleWith(b, market, outcome, regrade, declared, override, plan).value)
  {
    var divisor, ss, settled := SettleWithStages(b, market, outcome, regrade, declared, override, plan);
    SettledBookIsSafe(b, market, outcome, divisor, plan, ss, settled);
    FinishIsSafe(settled, market, outcome, divisor, b, plan);
  }

  /** settleWith leaves exactly IsSettled. */
  lemma SettleWithSettles(b: Book, market: Id, outcome: Option<map<Id, Grade>>, regrade: bool,
                          declared: bool, override: int, plan: Plan)
    returns (divisor: int, ss: seq<WagerSettlement>, posted: seq<Txn>)
    requires Sound(b) && IsPlan(b, market, plan)
    requires SettleWith(b, market, outcome, regrade, declared, override, plan).Ok?
    ensures SettleEach(Sorted(AcceptedOf(plan.rows)), GradeMap(plan.rows, outcome), divisor) == Ok(ss)
    ensures IsSettled(b, market, outcome, divisor, ss, posted,
                      SettleWith(b, market, outcome, regrade, declared, override, plan).value)
    ensures outcome.Some? ==> outcome.value.Keys == b.markets[market].lines.Keys
    ensures if outcome.Some? then DeadHeatDivisor(declared, override, outcome.value) == Ok(divisor) else divisor == 1
  {
    var settled;
    divisor, ss, settled := SettleWithStages(b, market, outcome, regrade, declared, override, plan);
    SettledBookIsSafe(b, market, outcome, divisor, plan, ss, settled);
    SettlementRows(b, market, outcome, divisor, plan, ss);
    OwnParlayIds(b);
    var more := FinishSettles(settled, market, outcome, divisor, b, plan);
    posted := LogRows(b, market, outcome, ss, settled.log, more);
  }

  lemma FinishIsSafe(settled: Book, market: Id, outcome: Option<map<Id, Grade>>, divisor: int, b: Book, plan: Plan)
    requires Sound(settled) && Finish(settled, market, outcome, divisor, plan.parlays).Ok?
    requires IsPlan(b, market, plan) && settled.parlays == b.parlays
    ensures Sound(Finish(settled, market, outcome, divisor, plan.parlays).value)
  {
    FinishVisits(settled, market, outcome, divisor, plan.parlays);
    var marked := Marked(settled, market, outcome, divisor);
    MarkedIsSafe(settled, market, outcome, divisor);
    forall id | id in plan.parlays ensures id in marked.parlays && marked.parlays[id].state == Accepted {
      AffectedOrder(b, market, outcome, plan, id);
    }
    VisitingIsSafe(marked, plan.parlays);
  }

  lemma FinishSettles(settled: Book, market: Id, outcome: Option<map<Id, Grade>>, divisor: int, b: Book, plan: Plan)
    returns (more: seq<Txn>)
    requires Finish(settled, market, outcome, divisor, plan.parlays).Ok?
    requires IsPlan(b, market, plan)
    requires forall id :: id in b.parlays ==> b.parlays[id].id == id
    requires settled == b.(wagers := settled.wagers, log := settled.log)
    ensures var after := Finish(settled, market, outcome, divisor, plan.parlays).value;
      && market in b.markets && after.wagers == settled.wagers
      && after.markets == Decided(b, market, outcome) && after.records == Recorded(b, market, outcome, divisor)
      && LegsCovered(b, market, outcome)
      && ParlaysSettled(b.parlays, market, outcome, after.parlays)
      && after.log == settled.log + more && PaysOnlyAffected(b.parlays, market, outcome, more)
  {
    FinishVisits(settled, market, outcome, divisor, plan.parlays);
    var marked := Marked(settled, market, outcome, divisor);
    assert marked.parlays == MarkParlays(b, market, outcome).parlays;
    forall id | id in plan.parlays ensures id in marked.parlays && marked.parlays[id].id == id {
      AffectedOrder(b, market, outcome, plan, id);
    }
    VisitingChanges(marked, plan.parlays);
    var after := SettleParlays(marked, plan.parlays).value;
    more := after.log[|settled.log|..];
    PlannedParlays(b, market, outcome, plan, after.parlays);
    PlannedPayments(b, market, outcome, plan, settled.log, after.log);
  }

  lemma RowsThenFinish(b: Book, market: Id, outcome: Option<map<Id, Grade>>, divisor: int, plan: Plan,
                       ss: seq<WagerSettlement>, settled: Book)
    requires SettleEach(Sorted(AcceptedOf(plan.rows)), GradeMap(plan.rows, outcome), divisor) == Ok(ss)
    requires ApplySettlements(b, ss, |Records(b, market)| + 1) == Ok(settled)
    ensures SettleRows(b, market, outcome, divisor, plan) == Finish(settled, market, outcome, divisor, plan.parlays)
  {
  }

  lemma RegradeIsSettlement(b: Book, market: Id, plan: Plan) returns (record: Record, divisor: int)
    requires Regrade(b, market, plan).Ok?
    ensures LastGraded(Records(b, market)) == Some(record)
    ensures market in b.markets && b.markets[market].state == Settled
    ensures divisor == LargestDivisor(record.divisors)
    ensures Regrade(b, market, plan) == SettleWith(b, market, Some(record.outcome), true, divisor > 1, divisor, plan)
  {
    record := LastGraded(Records(b, market)).value;
    divisor := LargestDivisor(record.divisors);
  }

  // ---- Reversals ---------------------------------------------------------------------------------

  lemma {:induction false} FindSpec(log: seq<Txn>, key: Key)
    ensures Find(log, key).Some? <==> HasKey(log, key)
    ensures Find(log, key).Some? ==> exists i :: 0 <= i < |log| && log[i] == Find(log, key).value && log[i].key == key
  {
    if log == [] {
    } else {
      var init := log[..|log| - 1];
      FindSpec(init, key);
      if HasKey(log, key) && log[|log| - 1].key != key {
        var i :| 0 <= i < |log| && log[i].key == key;
        assert init[i].key == key;
      }
      if Find(init, key).Some? {
        var i :| 0 <= i < |init| && init[i] == Find(init, key).value && init[i].key == key;
        assert log[i] == init[i];
      }
    }
  }

  lemma {:induction false} NegatedNets(postings: seq<Posting>, account: Account)
    ensures Net(Negated(postings)) == -Net(postings)
    ensures NetTo(Negated(postings), account) == -NetTo(postings, account)
  {
    if postings == [] {
    } else {
      var init := postings[..|postings| - 1];
      NegatedNets(init, account);
      assert Negated(postings)[..|init|] == Negated(init);
    }
  }

  lemma {:induction false} NegatedAt(postings: seq<Posting>, i: nat)
    requires i < |postings|
    ensures Negated(postings)[i] == Posting(postings[i].account, Money(-postings[i].amount.cents, postings[i].amount.currency))
    ensures Negated(postings)[..i] == Negated(postings[..i])
  {
    if i < |postings| - 1 {
      var init := postings[..|postings| - 1];
      NegatedAt(init, i);
      assert Negated(postings)[..i] == Negated(init)[..i];
      assert init[..i] == postings[..i];
    } else {
      assert Negated(postings)[..i] == Negated(postings[..i]);
    }
  }

  /** The inverse of a good adjustment is a good transaction, unless a prefix
      sits exactly on the negative end of int64. */
  lemma ReversalIsGood(t: Txn, reversal: Txn)
    requires GoodTxn(t) && AvoidsEscrow(t.postings)
    requires reversal == Txn(ReversalKind, reversal.key, t.currency, Negated(t.postings))
    requires ValidPostings(t.currency, Negated(t.postings))
    ensures GoodTxn(reversal) && AvoidsEscrow(reversal.postings)
  {
    forall i | 0 <= i < |t.postings|
      ensures reversal.postings[i].account == t.postings[i].account
    {
      NegatedAt(t.postings, i);
    }
  }

  lemma ReverseIsSafe(b: Book, id: Id)
    requires Sound(b) && KindsMatch(b.log) && ReverseSettlement(b, id).Ok?
    ensures Sound(ReverseSettlement(b, id).value)
  {
    FindSpec(b.log, Adjustment(id));
    var original := Find(b.log, Adjustment(id)).value;
    var i :| 0 <= i < |b.log| && b.log[i] == original && original.key == Adjustment(id);
    assert GoodTxn(b.log[i]) && KindMatches(b.log[i]);
    var t := Txn(ReversalKind, AdjustmentReversal(id), original.currency, Negated(original.postings));
    ReversalIsGood(original, t);
    CashStep(b, t);
    SameShapes(b, ReverseSettlement(b, id).value);
  }
}
