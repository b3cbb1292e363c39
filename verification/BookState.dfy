/** The book as a value: its tables, its append-only ledger, and one total
    function per store operation (internal/bettingpg). An operation that fails
    returns the error alone, so nothing it did is kept. */
module BookState {
  import opened Results
  import opened Ledger
  import opened Wagers
  import opened Settlement
  import opened Parlays
  import opened Totals

  // ---- Tables ------------------------------------------------------------------

  /** The unique idempotency key of a ledger transaction. */
  datatype Key =
    | WagerAcceptance(wager: Id)
    | WagerReduction(wager: Id, toCents: int)
    | WagerVoid(wager: Id)
    | WagerSettle(wager: Id, version: nat)
    | ParlayAcceptance(parlay: Id)
    | ParlaySettle(parlay: Id)
    | Adjustment(adjustment: Id)
    | AdjustmentReversal(adjustment: Id)

  datatype Kind = AcceptanceKind | WinKind | LossKind | RefundKind | AdminKind | ReversalKind

  /** The four wager transaction types that make up a betting result. */
  predicate IsBetting(kind: Kind) {
    kind != AdminKind && kind != ReversalKind
  }

  datatype Txn = Txn(kind: Kind, key: Key, currency: Currency, postings: seq<Posting>)

  datatype Market = Market(isMatch: bool, state: MarketState, currency: Currency, lines: map<Id, int>)

  /** One market_settlements row with its outcome rows. */
  datatype Record = Record(graded: bool, outcome: map<Id, Grade>, divisors: map<Id, int>)

  datatype Book = Book(
    markets: map<Id, Market>,
    wagers: map<Id, Wager>,
    parlays: map<Id, Parlay>,
    records: map<Id, seq<Record>>,
    log: seq<Txn>)

  const EmptyBook := Book(map[], map[], map[], map[], [])

  function Records(b: Book, market: Id): seq<Record> {
    if market in b.records then b.records[market] else []
  }

  // ---- The ledger ----------------------------------------------------------------

  predicate HasKey(log: seq<Txn>, key: Key) {
    exists i :: 0 <= i < |log| && log[i].key == key
  }

  function To(account: Account): Txn -> int {
    (t: Txn) => NetTo(t.postings, account)
  }

  function Balance(b: Book, account: Account): int {
    Tally(b.log, To(account))
  }

  function Positive(postings: seq<Posting>): int {
    if postings == [] then 0
    else
      var cents := postings[|postings| - 1].amount.cents;
      Positive(postings[..|postings| - 1]) + if cents > 0 then cents else 0
  }

  /** insertLedgerTransaction behind Transaction.Validate and the unique key. */
  function Post(b: Book, t: Txn): Result<Book> {
    if !ValidPostings(t.currency, t.postings) then Err(Unbalanced)
    else if HasKey(b.log, t.key) then Err(AlreadyExists)
    else Ok(b.(log := b.log + [t]))
  }

  function Put(b: Book, w: Wager): Book {
    b.(wagers := b.wagers[w.id := w])
  }

  function PutParlay(b: Book, p: Parlay): Book {
    b.(parlays := b.parlays[p.id := p])
  }

  // ---- Markets ---------------------------------------------------------------------

  function SetState(b: Book, market: Id, state: MarketState): Book
    requires market in b.markets
  {
    b.(markets := b.markets[market := b.markets[market].(state := state)])
  }

  function CreateMarket(b: Book, id: Id, isMatch: bool, currency: Currency, lines: map<Id, int>): Result<Book> {
    if id in b.markets then Err(AlreadyExists)
    else if exists s :: s in lines && !ValidOdds(lines[s]) then Err(InvalidOdds)
    else Ok(b.(markets := b.markets[id := Market(isMatch, Draft, currency, lines)]))
  }

  function OpenMarket(b: Book, id: Id): Result<Book> {
    if id !in b.markets then Err(NotFound)
    else if b.markets[id].state == Open then Ok(b)
    else if b.markets[id].state != Draft then Err(Transition)
    else Ok(SetState(b, id, Open))
  }

  function CloseMarket(b: Book, id: Id): Result<Book> {
    if id !in b.markets then Err(NotFound)
    else if b.markets[id].state == Closed then Ok(b)
    else if b.markets[id].state != Open then Err(NotSettleable)
    else Ok(SetState(b, id, Closed))
  }

  /** Any move of an offered line, automatic or by hand. */
  function MoveLine(b: Book, market: Id, selection: Id, odds: int): Result<Book> {
    if market !in b.markets || selection !in b.markets[market].lines then Err(NotFound)
    else if !ValidOdds(odds) then Err(InvalidOdds)
    else if b.markets[market].state != Open && b.markets[market].state != Draft then Err(Transition)
    else
      var m := b.markets[market];
      Ok(b.(markets := b.markets[market := m.(lines := m.lines[selection := odds])]))
  }

  predicate HasLiveWager(b: Book, market: Id) {
    exists id :: id in b.wagers && b.wagers[id].market == market
                 && (b.wagers[id].state == Pending || b.wagers[id].state == Accepted)
  }

  function CloseWithoutAction(b: Book, id: Id): Result<Book> {
    if id !in b.markets then Err(NotFound)
    else if b.markets[id].isMatch then Err(NotSettleable)
    else if b.markets[id].state != Closed && b.markets[id].state != SettlementPending then Err(NotSettleable)
    else if HasLiveWager(b, id) then Err(HasWagers)
    else Ok(SetState(b, id, NoAction))
  }

  // ---- Single wagers -----------------------------------------------------------------

  datatype WagerRequest = WagerRequest(
    id: Id, user: Id, market: Id, selection: Id, funding: Funding, stake: Money, key: string)

  predicate SameWager(stored: Wager, w: Wager) {
    && stored.market == w.market && stored.selection == w.selection && stored.stake == w.stake
    && stored.odds == w.odds && stored.funding == w.funding
  }

  /** `admitted` is the verdict of the restriction, time and stake-cap checks. A
      late placement read its market open and its line, without a lock, some time
      before its insert lands; `earlier` is that line, and by then the market can
      be in any state but Draft. */
  function PlaceWager(b: Book, r: WagerRequest, admitted: bool, earlier: Option<int>): Result<Book> {
    if r.market !in b.markets || r.selection !in b.markets[r.market].lines then Err(NotFound)
    else
      var m := b.markets[r.market];
      if (if earlier.Some? then m.state == Draft else m.state != Open) || !admitted then Err(MarketNotOpen)
      else if r.stake.cents <= 0 || r.stake.currency != m.currency then Err(InvalidStake)
      else
        var odds := if earlier.Some? then earlier.value else m.lines[r.selection];
        var profit :- Profit(odds, r.stake.cents);
        var w := Wager(r.id, r.user, r.market, r.selection, r.funding, r.stake, odds, profit, Pending, r.key, "");
        if profit <= 0 then Err(InvalidStake)
        else if exists id :: id in b.wagers && b.wagers[id].user == r.user && b.wagers[id].key == r.key then
          if exists id :: id in b.wagers && b.wagers[id].user == r.user && b.wagers[id].key == r.key
                          && SameWager(b.wagers[id], w)
          then Ok(b) else Err(IdempotencyConflict)
        else if r.id in b.wagers then Err(AlreadyExists)
        else Ok(Put(b, w))
  }

  function AcceptanceRows(wager: Id): Txn -> int {
    (t: Txn) => if t.key == WagerAcceptance(wager) then |t.postings| else 0
  }

  function AcceptedCents(wager: Id): Txn -> int {
    (t: Txn) => if t.key == WagerAcceptance(wager) then Positive(t.postings) else 0
  }

  function ReducedCents(wager: Id): Txn -> int {
    (t: Txn) => if t.key.WagerReduction? && t.key.wager == wager then Positive(t.postings) else 0
  }

  /** verifyAcceptance: escrow took the present stake plus every reduction since. */
  predicate AcceptanceVerifies(b: Book, w: Wager) {
    && Tally(b.log, AcceptanceRows(w.id)) == 2
    && Tally(b.log, AcceptedCents(w.id)) == w.stake.cents + Tally(b.log, ReducedCents(w.id))
  }

  function AcceptanceTxn(w: Wager): Txn {
    Txn(AcceptanceKind, WagerAcceptance(w.id), w.stake.currency,
        MovePostings(FundingAccount(w), Escrow(w.stake.currency), w.stake))
  }

  /** `unchecked` leaves out the market check: acceptance as it was before it
      refused decided markets, which left the stranded wagers that a regrade
      picks up. */
  function AcceptWager(b: Book, id: Id, creditLimit: int, unchecked: bool): Result<Book> {
    if id !in b.wagers then Err(NotFound)
    else
      var w := b.wagers[id];
      if w.state == Accepted then
        if AcceptanceVerifies(b, w) then Ok(b) else Err(IdempotencyConflict)
      else if w.market !in b.markets then Err(NotFound)
      else if !unchecked && b.markets[w.market].state in {Settled, Voided, Cancelled} then Err(MarketDecided)
      else if Balance(b, FundingAccount(w)) + creditLimit < w.stake.cents then Err(InsufficientFunds)
      else if w.state != Pending then Err(Transition)
      else
        var posted :- Post(b, AcceptanceTxn(w));
        Ok(Put(posted, w.(state := Accepted)))
  }

  function RejectWager(b: Book, id: Id, reason: string): Result<Book> {
    if id !in b.wagers then Err(NotFound)
    else
      var w := b.wagers[id];
      if w.state == Rejected then
        if w.reason == reason then Ok(b) else Err(IdempotencyConflict)
      else if w.state != Pending then Err(Transition)
      else if reason == "" then Err(Invalid)
      else Ok(Put(b, w.(state := Rejected, reason := reason)))
  }

  const CANCEL_REASON := "Cancelled by the member before acceptance"

  function CancelWager(b: Book, id: Id, user: Id): Result<Book> {
    if id !in b.wagers || b.wagers[id].user != user then Err(NotFound)
    else RejectWager(b, id, CANCEL_REASON)
  }

  function ReductionTxn(w: Wager, newStake: int): Txn {
    Txn(RefundKind, WagerReduction(w.id, newStake), w.stake.currency,
        MovePostings(Escrow(w.stake.currency), FundingAccount(w), Money(w.stake.cents - newStake, w.stake.currency)))
  }

  function ReduceWager(b: Book, id: Id, newStake: int): Result<Book> {
    if id !in b.wagers then Err(NotFound)
    else
      var w := b.wagers[id];
      if w.market !in b.markets then Err(NotFound)
      else if b.markets[w.market].state in {Settled, Voided, Cancelled} then Err(MarketDecided)
      else if HasKey(b.log, WagerReduction(id, newStake)) then Ok(b)
      else if w.state != Accepted then Err(Transition)
      else if newStake <= 0 || newStake >= w.stake.cents then Err(InvalidStake)
      else
        var profit :- Profit(w.odds, newStake);
        var posted :- Post(b, ReductionTxn(w, newStake));
        Ok(Put(posted, w.(stake := Money(newStake, w.stake.currency), potentialProfit := profit)))
  }

  function VoidTxn(w: Wager): Txn {
    Txn(RefundKind, WagerVoid(w.id), w.stake.currency,
        MovePostings(Escrow(w.stake.currency), FundingAccount(w), w.stake))
  }

  function VoidWager(b: Book, id: Id): Result<Book> {
    if id !in b.wagers then Err(NotFound)
    else
      var w := b.wagers[id];
      if w.state == Refunded && HasKey(b.log, WagerVoid(id)) then Ok(b)
      else if w.state != Accepted then Err(Transition)
      else
        var posted :- Post(b, VoidTxn(w));
        Ok(Put(posted, w.(state := Refunded)))
  }

  // ---- Parlays -------------------------------------------------------------------------

  datatype ParlayRequest = ParlayRequest(
    id: Id, user: Id, funding: Funding, stake: Money, key: string, picks: seq<(Id, Id)>)

  predicate PickEligible(b: Book, pick: (Id, Id), currency: Currency) {
    && pick.0 in b.markets && pick.1 in b.markets[pick.0].lines
    && b.markets[pick.0].isMatch && b.markets[pick.0].state == Open && b.markets[pick.0].currency == currency
  }

  predicate PicksEligible(b: Book, picks: seq<(Id, Id)>, currency: Currency) {
    && (forall i :: 0 <= i < |picks| ==> PickEligible(b, picks[i], currency))
    && (forall i, j :: 0 <= i < j < |picks| ==> picks[i].0 != picks[j].0)
  }

  function LegsFor(b: Book, picks: seq<(Id, Id)>, currency: Currency): (legs: seq<Leg>)
    requires PicksEligible(b, picks, currency)
    ensures |legs| == |picks|
    ensures forall i :: 0 <= i < |picks| ==>
      legs[i] == Leg(picks[i].0, picks[i].1, b.markets[picks[i].0].lines[picks[i].1], None)
  {
    seq(|picks|, i requires 0 <= i < |picks| =>
      Leg(picks[i].0, picks[i].1, b.markets[picks[i].0].lines[picks[i].1], None))
  }

  predicate SameParlay(stored: Parlay, p: Parlay) {
    && stored.stake.cents == p.stake.cents && stored.odds == p.odds && |stored.legs| == |p.legs|
    && forall i :: 0 <= i < |p.legs| ==> stored.legs[i].selection == p.legs[i].selection
  }

  function PlaceParlay(b: Book, r: ParlayRequest, admitted: bool, maxPayout: int): Result<Book> {
    if |r.picks| < MIN_LEGS then Err(TooFewLegs)
    else if |r.picks| > MAX_LEGS then Err(TooManyLegs)
    else if r.stake.cents <= 0 then Err(InvalidStake)
    else if !admitted || !PicksEligible(b, r.picks, r.stake.currency) then Err(Invalid)
    else
      var legs := LegsFor(b, r.picks, r.stake.currency);
      var (odds, profit) :- PriceParlay(legs, r.stake.cents, DEFAULT_JUICE, maxPayout);
      var p := Parlay(r.id, r.user, r.funding, r.stake, odds, profit, legs, Pending, r.key);
      if exists id :: id in b.parlays && b.parlays[id].user == r.user && b.parlays[id].key == r.key then
        if exists id :: id in b.parlays && b.parlays[id].user == r.user && b.parlays[id].key == r.key
                        && SameParlay(b.parlays[id], p)
        then Ok(b) else Err(IdempotencyConflict)
      else if r.id in b.parlays then Err(AlreadyExists)
      else Ok(PutParlay(b, p))
  }

  function ParlayAccount(p: Parlay): Account {
    Member(p.user, p.funding, p.stake.currency)
  }

  function ParlayAcceptanceTxn(p: Parlay): Txn {
    Txn(AcceptanceKind, ParlayAcceptance(p.id), p.stake.currency,
        MovePostings(ParlayAccount(p), Escrow(p.stake.currency), p.stake))
  }

  predicate LegDecided(b: Book, leg: Leg) {
    leg.market in b.markets && IsDecided(b.markets[leg.market].state)
  }

  /** A `late` acceptance counted the decided legs, without a lock, some time
      before it commits, and found none. */
  function AcceptParlay(b: Book, id: Id, creditLimit: int, late: bool): Result<Book> {
    if id !in b.parlays then Err(NotFound)
    else
      var p := b.parlays[id];
      if p.state == Accepted then Ok(b)
      else if p.state != Pending then Err(Transition)
      else if !late && exists i :: 0 <= i < |p.legs| && LegDecided(b, p.legs[i]) then Err(MarketDecided)
      else if Balance(b, ParlayAccount(p)) + creditLimit < p.stake.cents then Err(InsufficientFunds)
      else
        var posted :- Post(b, ParlayAcceptanceTxn(p));
        Ok(PutParlay(posted, p.(state := Accepted)))
  }

  /** RejectParlay and CancelParlay: nothing has been debited yet. */
  function RejectParlay(b: Book, id: Id): Result<Book> {
    if id !in b.parlays then Err(NotFound)
    else if b.parlays[id].state != Pending then Err(Transition)
    else Ok(PutParlay(b, b.parlays[id].(state := Rejected)))
  }

  // ---- Settlement ------------------------------------------------------------------------

  function KindOf(grade: Grade): Kind {
    match grade
    case Win => WinKind
    case Loss => LossKind
    case _ => RefundKind
  }

  function NextState(grade: Grade): WagerState {
    if grade == Void then Refunded else Graded
  }

  function SettleTxn(s: WagerSettlement, version: nat): Txn {
    Txn(KindOf(s.grade), WagerSettle(s.wager, version), s.stake.currency, s.postings)
  }

  /** settleWith's loop: post each settlement and move its wager on. */
  function ApplySettlements(b: Book, ss: seq<WagerSettlement>, version: nat): Result<Book> {
    if ss == [] then Ok(b)
    else
      var init :- ApplySettlements(b, ss[..|ss| - 1], version);
      var s := ss[|ss| - 1];
      var posted :- Post(init, SettleTxn(s, version));
      if s.wager !in posted.wagers then Err(NotFound)
      else Ok(Put(posted, posted.wagers[s.wager].(state := NextState(s.grade))))
  }

  /** The result of an open leg on a market settled with `outcome`, or voided. */
  function LegGrade(leg: Leg, outcome: Option<map<Id, Grade>>): Grade {
    if outcome.None? then Void
    else if leg.selection in outcome.value then outcome.value[leg.selection] else Void
  }

  predicate IsOpenOn(leg: Leg, market: Id) {
    leg.market == market && leg.result.None?
  }

  function MarkLegs(legs: seq<Leg>, market: Id, outcome: Option<map<Id, Grade>>): (r: seq<Leg>)
    ensures |r| == |legs|
    ensures forall i :: 0 <= i < |legs| ==>
      r[i] == if IsOpenOn(legs[i], market) then legs[i].(result := Some(LegGrade(legs[i], outcome))) else legs[i]
  {
    seq(|legs|, i requires 0 <= i < |legs| =>
      if IsOpenOn(legs[i], market) then legs[i].(result := Some(LegGrade(legs[i], outcome))) else legs[i])
  }

  predicate IsAffected(p: Parlay, market: Id) {
    p.state == Accepted && exists i :: 0 <= i < |p.legs| && IsOpenOn(p.legs[i], market)
  }

  function Affected(b: Book, market: Id): set<Id> {
    set id | id in b.parlays && IsAffected(b.parlays[id], market)
  }

  predicate LegsCovered(b: Book, market: Id, outcome: Option<map<Id, Grade>>) {
    outcome.Some? ==> forall id :: id in b.parlays ==> LegsGraded(b.parlays[id], market, outcome.value)
  }

  predicate LegsGraded(p: Parlay, market: Id, outcome: map<Id, Grade>) {
    p.state == Accepted ==>
      forall i :: 0 <= i < |p.legs| && IsOpenOn(p.legs[i], market) ==> p.legs[i].selection in outcome
  }

  function MarkParlays(b: Book, market: Id, outcome: Option<map<Id, Grade>>): Book {
    b.(parlays := map id | id in b.parlays ::
      if IsAffected(b.parlays[id], market)
      then b.parlays[id].(legs := MarkLegs(b.parlays[id].legs, market, outcome)) else b.parlays[id])
  }

  function ParlaySettleTxn(p: Parlay, outcome: ParlayOutcome): Txn {
    Txn(KindOf(outcome.grade), ParlaySettle(p.id), p.stake.currency, ParlayPostings(p, outcome))
  }

  /** settleParlayIfCompleteTx. */
  function SettleParlayIfComplete(b: Book, id: Id): Result<Book> {
    if id !in b.parlays then Err(NotFound)
    else
      var p := b.parlays[id];
      match SettleParlay(p, DEFAULT_JUICE)
      case None => Ok(b)
      case Some(Err(e)) => Err(e)
      case Some(Ok(outcome)) =>
        var posted :- Post(b, ParlaySettleTxn(p, outcome));
        Ok(PutParlay(posted, p.(state := Graded)))
  }

  function SettleParlays(b: Book, order: seq<Id>): Result<Book> {
    if order == [] then Ok(b)
    else
      var init :- SettleParlays(b, order[..|order| - 1]);
      SettleParlayIfComplete(init, order[|order| - 1])
  }

  function ResolveParlays(b: Book, market: Id, outcome: Option<map<Id, Grade>>, order: seq<Id>): Result<Book> {
    if !LegsCovered(b, market, outcome) then Err(IncompleteOutcome)
    else SettleParlays(MarkParlays(b, market, outcome), order)
  }

  /** The orders the source leaves open: how the market's wagers are loaded and
      how the affected parlays are visited. */
  datatype Plan = Plan(rows: seq<Wager>, parlays: seq<Id>)

  ghost predicate IsPlan(b: Book, market: Id, plan: Plan) {
    && DistinctIds(plan.rows)
    && (forall w :: w in plan.rows <==> w.id in b.wagers && b.wagers[w.id] == w && w.market == market)
    && (forall i, j :: 0 <= i < j < |plan.parlays| ==> plan.parlays[i] != plan.parlays[j])
    && (forall id :: id in plan.parlays <==> id in Affected(b, market))
  }

  predicate SettleableState(state: MarketState, graded: bool, regrade: bool) {
    if graded then (regrade && state == Settled) || state == Closed || state == SettlementPending
    else state == Open || state == Closed || state == SettlementPending
  }

  function MarketRecord(outcome: Option<map<Id, Grade>>, divisor: int): Record {
    if outcome.None? then Record(false, map[], map[])
    else Record(true, outcome.value, RecordedDivisors(outcome.value, divisor))
  }

  /** The grade every wager of the market is settled with. */
  function GradeMap(rows: seq<Wager>, outcome: Option<map<Id, Grade>>): map<Id, Grade> {
    if outcome.Some? then outcome.value else map s | s in Selections(rows) :: Void
  }

  function Selections(rows: seq<Wager>): set<Id> {
    set i | 0 <= i < |rows| :: rows[i].selection
  }

  /** settleWith: outcome is None for a void. */
  function SettleWith(b: Book, market: Id, outcome: Option<map<Id, Grade>>, regrade: bool,
                      declared: bool, override: int, plan: Plan): Result<Book> {
    if market !in b.markets then Err(NotFound)
    else
      var m := b.markets[market];
      var state := if outcome.Some? && m.state == Open then Closed else m.state;
      if !SettleableState(state, outcome.Some?, regrade) then Err(NotSettleable)
      else if outcome.Some? && outcome.value.Keys != m.lines.Keys then Err(IncompleteOutcome)
      else
        var divisor :- if outcome.Some? then DeadHeatDivisor(declared, override, outcome.value) else Ok(1);
        SettleRows(b, market, outcome, divisor, plan)
  }

  function SettleRows(b: Book, market: Id, outcome: Option<map<Id, Grade>>, divisor: int, plan: Plan): Result<Book> {
    var settled :- GradeRows(b, market, outcome, divisor, plan.rows);
    Finish(settled, market, outcome, divisor, plan.parlays)
  }

  /** Grade the market's wagers and post their settlements as its next version. */
  function GradeRows(b: Book, market: Id, outcome: Option<map<Id, Grade>>, divisor: int, rows: seq<Wager>): Result<Book> {
    PostAll(b, SettleEach(Sorted(AcceptedOf(rows)), GradeMap(rows, outcome), divisor), |Records(b, market)| + 1)
  }

  function PostAll(b: Book, graded: Result<seq<WagerSettlement>>, version: nat): Result<Book> {
    match graded
    case Ok(ss) => ApplySettlements(b, ss, version)
    case Err(e) => Err(e)
  }

  /** Record the settlement, decide the market, resolve the parlays on it. */
  function Finish(b: Book, market: Id, outcome: Option<map<Id, Grade>>, divisor: int, order: seq<Id>): Result<Book> {
    if market !in b.markets then Err(NotFound)
    else
      var recorded := b.(records := b.records[market := Records(b, market) + [MarketRecord(outcome, divisor)]]);
      var decided := SetState(recorded, market, if outcome.Some? then Settled else Voided);
      ResolveParlays(decided, market, outcome, order)
  }

  // ---- Regrade --------------------------------------------------------------------------

  /** The latest graded settlement of a market. */
  function LastGraded(records: seq<Record>): Option<Record> {
    if records == [] then None
    else if records[|records| - 1].graded then Some(records[|records| - 1])
    else LastGraded(records[..|records| - 1])
  }

  predicate HasStranded(b: Book, market: Id) {
    && market in b.markets && b.markets[market].state == Settled
    && LastGraded(Records(b, market)).Some?
    && exists id :: id in b.wagers && b.wagers[id].market == market && b.wagers[id].state == Accepted
                    && b.wagers[id].selection in LastGraded(Records(b, market)).value.outcome
  }

  ghost function LargestDivisor(rows: map<Id, int>): (d: int)
    ensures d >= 1 && forall s :: s in rows ==> rows[s] <= d
    ensures d == 1 || exists s :: s in rows && rows[s] == d
    decreases |rows|
  {
    if rows == map[] then 1
    else
      var s :| s in rows;
      var others := rows - {s};
      assert forall x :: x in rows ==> x == s || (x in others && others[x] == rows[x]);
      var rest := LargestDivisor(others);
      if rows[s] > rest then rows[s] else rest
  }

  ghost function Regrade(b: Book, market: Id, plan: Plan): Result<Book> {
    if !HasStranded(b, market) then Err(NothingToRegrade)
    else
      var record := LastGraded(Records(b, market)).value;
      if record.outcome == map[] then Err(NothingToRegrade)
      else
        var divisor := LargestDivisor(record.divisors);
        SettleWith(b, market, Some(record.outcome), true, divisor > 1, divisor, plan)
  }

  // ---- Settle-ups -------------------------------------------------------------------------

  datatype Direction = PaymentReceived | PayoutSent

  function AdjustmentTxn(id: Id, user: Id, direction: Direction, amount: Money): Txn {
    var member, house := Member(user, Cash, amount.currency), House(amount.currency);
    Txn(AdminKind, Adjustment(id), amount.currency,
        if direction == PaymentReceived then
          [Posting(member, amount), Posting(house, Money(-amount.cents, amount.currency))]
        else
          [Posting(member, Money(-amount.cents, amount.currency)), Posting(house, amount)])
  }

  function RecordSettlement(b: Book, id: Id, user: Id, direction: Direction, amount: Money): Result<Book> {
    if HasKey(b.log, Adjustment(id)) then Ok(b)
    else if !ValidStake(amount) then Err(InvalidStake)
    else Post(b, AdjustmentTxn(id, user, direction, amount))
  }

  function Negated(postings: seq<Posting>): (r: seq<Posting>)
    ensures |r| == |postings|
  {
    if postings == [] then []
    else
      var last := postings[|postings| - 1];
      Negated(postings[..|postings| - 1]) + [Posting(last.account, Money(-last.amount.cents, last.amount.currency))]
  }

  function Find(log: seq<Txn>, key: Key): Option<Txn> {
    if log == [] then None
    else if log[|log| - 1].key == key then Some(log[|log| - 1])
    else Find(log[..|log| - 1], key)
  }

  function ReverseSettlement(b: Book, id: Id): Result<Book> {
    match Find(b.log, Adjustment(id))
    case None => Err(NotFound)
    case Some(original) =>
      if HasKey(b.log, AdjustmentReversal(id)) then Err(AlreadyExists)
      else Post(b, Txn(ReversalKind, AdjustmentReversal(id), original.currency, Negated(original.postings)))
  }

  // ---- Operations and runs ------------------------------------------------------------------

  datatype Op =
    | OpCreate(id: Id, isMatch: bool, currency: Currency, lines: map<Id, int>)
    | OpOpen(id: Id)
    | OpClose(id: Id)
    | OpMoveLine(id: Id, selection: Id, odds: int)
    | OpCloseWithoutAction(id: Id)
    | OpPlace(wager: WagerRequest, admitted: bool)
    | OpPlaceLate(wager: WagerRequest, admitted: bool, odds: int)
    | OpAccept(id: Id, creditLimit: int)
    | OpAcceptUnchecked(id: Id, creditLimit: int)
    | OpReject(id: Id, reason: string)
    | OpCancel(id: Id, user: Id)
    | OpReduce(id: Id, newStake: int)
    | OpVoid(id: Id)
    | OpPlaceParlay(parlay: ParlayRequest, admitted: bool, maxPayout: int)
    | OpAcceptParlay(id: Id, creditLimit: int)
    | OpAcceptParlayLate(id: Id, creditLimit: int)
    | OpRejectParlay(id: Id)
    | OpSettle(id: Id, outcome: map<Id, Grade>, deadHeat: bool, plan: Plan)
    | OpVoidMarket(id: Id, plan: Plan)
    | OpRegrade(id: Id, plan: Plan)
    | OpSettleUp(id: Id, user: Id, direction: Direction, amount: Money)
    | OpReverse(id: Id)

  ghost function Perform(b: Book, op: Op): Result<Book> {
    match op
    case OpCreate(id, isMatch, currency, lines) => CreateMarket(b, id, isMatch, currency, lines)
    case OpOpen(id) => OpenMarket(b, id)
    case OpClose(id) => CloseMarket(b, id)
    case OpMoveLine(id, selection, odds) => MoveLine(b, id, selection, odds)
    case OpCloseWithoutAction(id) => CloseWithoutAction(b, id)
    case OpPlace(wager, admitted) => PlaceWager(b, wager, admitted, None)
    case OpPlaceLate(wager, admitted, odds) => PlaceWager(b, wager, admitted, Some(odds))
    case OpAccept(id, creditLimit) => AcceptWager(b, id, creditLimit, false)
    case OpAcceptUnchecked(id, creditLimit) => AcceptWager(b, id, creditLimit, true)
    case OpReject(id, reason) => RejectWager(b, id, reason)
    case OpCancel(id, user) => CancelWager(b, id, user)
    case OpReduce(id, newStake) => ReduceWager(b, id, newStake)
    case OpVoid(id) => VoidWager(b, id)
    case OpPlaceParlay(parlay, admitted, maxPayout) => PlaceParlay(b, parlay, admitted, maxPayout)
    case OpAcceptParlay(id, creditLimit) => AcceptParlay(b, id, creditLimit, false)
    case OpAcceptParlayLate(id, creditLimit) => AcceptParlay(b, id, creditLimit, true)
    case OpRejectParlay(id) => RejectParlay(b, id)
    case OpSettle(id, outcome, deadHeat, plan) => SettleWith(b, id, Some(outcome), false, deadHeat, 0, plan)
    case OpVoidMarket(id, plan) => SettleWith(b, id, None, false, false, 0, plan)
    case OpRegrade(id, plan) => Regrade(b, id, plan)
    case OpSettleUp(id, user, direction, amount) => RecordSettlement(b, id, user, direction, amount)
    case OpReverse(id) => ReverseSettlement(b, id)
  }

  /** A settlement's plan has to enumerate the rows it really meets. */
  ghost predicate Enabled(b: Book, op: Op) {
    match op
    case OpSettle(id, _, _, plan) => IsPlan(b, id, plan)
    case OpVoidMarket(id, plan) => IsPlan(b, id, plan)
    case OpRegrade(id, plan) => IsPlan(b, id, plan)
    case _ => true
  }

  /** One transaction: it commits, or the book is left as it was. */
  ghost function Step(b: Book, op: Op): Book {
    var r := Perform(b, op);
    if Enabled(b, op) && r.Ok? then r.value else b
  }

  ghost function Run(ops: seq<Op>): Book {
    if ops == [] then EmptyBook else Step(Run(ops[..|ops| - 1]), ops[|ops| - 1])
  }
}
