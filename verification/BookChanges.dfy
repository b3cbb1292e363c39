/** Every committed operation is one of five changes. What holds of a change
    holds of all the operations that make it. */
module BookChanges {
  import opened Results
  import opened Ledger
  import opened Wagers
  import opened Settlement
  import opened Parlays
  import opened BookState
  import opened BookInvariant
  import opened BookSafety
  import opened BookSettlement

  // ---- Markets ---------------------------------------------------------------------

  predicate MarketMove(b: Book, id: Id, next: Market) {
    if id !in b.markets then next.state == Draft
    else
      var m := b.markets[id];
      && SameSelections(m, next)
      && match next.state
         case NoAction => m.state == NoAction
           || ((m.state == Closed || m.state == SettlementPending) && !m.isMatch && !HasLiveWager(b, id))
         case _ => next.state == m.state || (m.state == Draft && next.state == Open) || (m.state == Open && next.state == Closed)
  }

  predicate MarketChange(b: Book, id: Id, after: Book) {
    && id in after.markets && MarketMove(b, id, after.markets[id])
    && after == b.(markets := b.markets[id := after.markets[id]])
  }

  // ---- Wagers -----------------------------------------------------------------------

  /** How an operation looked at the market: before its change, at an earlier
      moment, or not at all. */
  datatype Check = Checked | Earlier | Unchecked

  /** How one wager row may change without a market settlement. */
  predicate WagerMove(b: Book, next: Wager, how: Check) {
    if next.id !in b.wagers then
      next.state == Pending && next.market in b.markets && CanPlace(b.markets[next.market].state, how)
    else
      var w := b.wagers[next.id];
      && next == w.(stake := Money(next.stake.cents, w.stake.currency), potentialProfit := next.potentialProfit,
                    state := next.state, reason := next.reason)
      && match next.state
         case Pending => false
         case Accepted => w.state == Accepted || (w.state == Pending && (how == Unchecked || CanAccept(b, w.market)))
         case Rejected => w.state == Pending
         case Refunded => w.state == Accepted
         case Graded => false
  }

  predicate CanPlace(state: MarketState, how: Check) {
    state == Open || (how == Earlier && state != Draft)
  }

  predicate CanAccept(b: Book, market: Id) {
    market in b.markets && b.markets[market].state !in {Settled, Voided, Cancelled}
  }

  /** At most one new transaction, about a wager or parlay but settling neither. */
  predicate PostsOne(before: seq<Txn>, after: seq<Txn>) {
    after == before || (|after| == |before| + 1 && after[..|before|] == before && IsInterim(after[|before|]))
  }

  predicate IsInterim(t: Txn) {
    IsBetting(t.kind) && (t.key.WagerAcceptance? || t.key.WagerReduction? || t.key.WagerVoid? || t.key.ParlayAcceptance?)
  }

  /** If `t` voids a wager then it voids `w`, for its whole stake. */
  predicate IsVoidOf(t: Txn, w: Wager) {
    t.key.WagerVoid? ==> t == VoidTxn(w) && w.state == Refunded
  }

  predicate WagerChange(b: Book, id: Id, how: Check, after: Book) {
    && id in after.wagers && after.wagers[id].id == id && WagerMove(b, after.wagers[id], how)
    && after == b.(wagers := b.wagers[id := after.wagers[id]], log := after.log)
    && PostsOne(b.log, after.log)
    && (after.log != b.log ==> IsVoidOf(after.log[|b.log|], after.wagers[id]))
  }

  // ---- Parlays ------------------------------------------------------------------------

  /** The price snapshot a placed parlay carries. */
  predicate PricedAsPlaced(p: Parlay) {
    && ParlayOdds(LegOdds(p.legs), DEFAULT_JUICE) == Ok(p.odds)
    && Profit(p.odds, p.stake.cents) == Ok(p.potentialProfit) && p.potentialProfit > 0
  }

  predicate ParlayMove(b: Book, next: Parlay, how: Check) {
    if next.id !in b.parlays then next.state == Pending && PricedAsPlaced(next)
    else
      var p := b.parlays[next.id];
      && p.state == Pending && next == p.(state := next.state)
      && (next.state == Rejected || (next.state == Accepted && (how == Earlier || NoLegDecided(b, p))))
  }

  predicate NoLegDecided(b: Book, p: Parlay) {
    forall i :: 0 <= i < |p.legs| ==> !LegDecided(b, p.legs[i])
  }

  predicate ParlayChange(b: Book, id: Id, how: Check, after: Book) {
    && id in after.parlays && after.parlays[id].id == id && ParlayMove(b, after.parlays[id], how)
    && after == b.(parlays := b.parlays[id := after.parlays[id]], log := after.log)
    && PostsOne(b.log, after.log)
    && (after.log != b.log ==> !after.log[|b.log|].key.WagerVoid?)
  }

  // ---- Settle-ups -----------------------------------------------------------------------

  ghost predicate CashChange(b: Book, after: Book) {
    && |after.log| == |b.log| + 1 && after == b.(log := b.log + [after.log[|b.log|]])
    && var t := after.log[|b.log|];
       (t.key.Adjustment? || t.key.AdjustmentReversal?) && !IsBetting(t.kind) && IsAdjustment(t)
  }

  ghost predicate IsAdjustment(t: Txn) {
    t.key.Adjustment? ==>
      exists user, direction, amount :: ValidStake(amount) && t == AdjustmentTxn(t.key.adjustment, user, direction, amount)
  }

  // ---- Settlements ------------------------------------------------------------------------

  /** A first settlement meets an undecided market; a regrade meets a settled
      one and repeats its last recorded outcome and divisor. */
  ghost predicate SettlementAllowed(b: Book, market: Id, outcome: Option<map<Id, Grade>>, divisor: int) {
    && market in b.markets
    && (outcome.Some? ==> outcome.value.Keys == b.markets[market].lines.Keys)
    && if b.markets[market].state == Settled then
         && LastGraded(Records(b, market)).Some? && outcome == Some(LastGraded(Records(b, market)).value.outcome)
         && Replays(LastGraded(Records(b, market)).value, divisor)
       else
         && b.markets[market].state in {Open, Closed, SettlementPending}
         && if outcome.Some? then exists declared :: DeadHeatDivisor(declared, 0, outcome.value) == Ok(divisor)
            else divisor == 1
  }

  ghost predicate Replays(record: Record, divisor: int) {
    var d := LargestDivisor(record.divisors);
    DeadHeatDivisor(d > 1, d, record.outcome) == Ok(divisor)
  }

  ghost predicate SettleChange(b: Book, market: Id, outcome: Option<map<Id, Grade>>, divisor: int,
                               ss: seq<WagerSettlement>, posted: seq<Txn>, after: Book) {
    SettlementAllowed(b, market, outcome, divisor) && IsSettled(b, market, outcome, divisor, ss, posted, after)
  }

  ghost predicate Settles(b: Book, after: Book) {
    exists market, outcome, divisor, ss, posted :: SettleChange(b, market, outcome, divisor, ss, posted, after)
  }

  // ---- Each operation makes one of these changes -----------------------------------------------

  ghost predicate Change(b: Book, how: Check, after: Book) {
    || after == b
    || (exists id :: MarketChange(b, id, after))
    || (exists id :: WagerChange(b, id, how, after))
    || (exists id :: ParlayChange(b, id, how, after))
    || CashChange(b, after)
    || Settles(b, after)
  }

  lemma MarketOps(b: Book, op: Op)
    requires op.OpCreate? || op.OpOpen? || op.OpClose? || op.OpMoveLine? || op.OpCloseWithoutAction?
    requires Perform(b, op).Ok?
    ensures var after := Perform(b, op).value; after == b || MarketChange(b, op.id, after)
  {
  }

  predicate IsWagerOp(op: Op) {
    || op.OpPlace? || op.OpPlaceLate? || op.OpAccept? || op.OpAcceptUnchecked?
    || op.OpReject? || op.OpCancel? || op.OpReduce? || op.OpVoid?
  }

  function CheckOf(op: Op): Check {
    match op
    case OpPlaceLate(_, _, _) => Earlier
    case OpAcceptParlayLate(_, _) => Earlier
    case OpAcceptUnchecked(_, _) => Unchecked
    case _ => Checked
  }

  function WagerOf(op: Op): Id
    requires IsWagerOp(op)
  {
    if op.OpPlace? || op.OpPlaceLate? then op.wager.id else op.id
  }

  lemma WagerOps(b: Book, op: Op)
    requires IsWagerOp(op) && Perform(b, op).Ok? && OwnRows(b)
    ensures var after := Perform(b, op).value;
      after == b || WagerChange(b, WagerOf(op), CheckOf(op), after)
  {
    match op
    case OpAccept(id, creditLimit) => AcceptOps(b, id, creditLimit, false);
    case OpAcceptUnchecked(id, creditLimit) => AcceptOps(b, id, creditLimit, true);
    case OpReduce(id, newStake) => ReduceOp(b, id, newStake);
    case OpVoid(id) => VoidOp(b, id);
    case OpPlace(wager, admitted) => PlaceOps(b, wager, admitted, None);
    case OpPlaceLate(wager, admitted, odds) => PlaceOps(b, wager, admitted, Some(odds));
    case OpReject(id, reason) => RejectOps(b, id, reason);
    case OpCancel(id, user) => RejectOps(b, id, CANCEL_REASON);
    case _ =>
  }

  lemma PlaceOps(b: Book, r: WagerRequest, admitted: bool, earlier: Option<int>)
    requires PlaceWager(b, r, admitted, earlier).Ok? && OwnRows(b)
    ensures var after := PlaceWager(b, r, admitted, earlier).value;
      after == b || WagerChange(b, r.id, if earlier.Some? then Earlier else Checked, after)
  {
  }

  lemma RejectOps(b: Book, id: Id, reason: string)
    requires RejectWager(b, id, reason).Ok? && OwnRows(b)
    ensures var after := RejectWager(b, id, reason).value; after == b || WagerChange(b, id, Checked, after)
  {
  }

  lemma AcceptOps(b: Book, id: Id, creditLimit: int, unchecked: bool)
    requires AcceptWager(b, id, creditLimit, unchecked).Ok? && OwnRows(b)
    ensures var after := AcceptWager(b, id, creditLimit, unchecked).value;
      after == b || WagerChange(b, id, if unchecked then Unchecked else Checked, after)
  {
  }

  lemma ReduceOp(b: Book, id: Id, newStake: int)
    requires ReduceWager(b, id, newStake).Ok? && OwnRows(b)
    ensures var after := ReduceWager(b, id, newStake).value; after == b || WagerChange(b, id, Checked, after)
  {
  }

  lemma VoidOp(b: Book, id: Id)
    requires VoidWager(b, id).Ok? && OwnRows(b)
    ensures var after := VoidWager(b, id).value; after == b || WagerChange(b, id, Checked, after)
  {
  }

  predicate OwnRows(b: Book) {
    && (forall id :: id in b.wagers ==> b.wagers[id].id == id)
    && (forall id :: id in b.parlays ==> b.parlays[id].id == id)
  }

  predicate IsParlayOp(op: Op) {
    op.OpPlaceParlay? || op.OpAcceptParlay? || op.OpAcceptParlayLate? || op.OpRejectParlay?
  }

  lemma ParlayOps(b: Book, op: Op)
    requires IsParlayOp(op)
    requires Perform(b, op).Ok? && OwnRows(b)
    ensures var after := Perform(b, op).value;
      after == b || ParlayChange(b, if op.OpPlaceParlay? then op.parlay.id else op.id, CheckOf(op), after)
  {
    match op
    case OpAcceptParlay(id, creditLimit) => AcceptParlayOps(b, id, creditLimit, false);
    case OpAcceptParlayLate(id, creditLimit) => AcceptParlayOps(b, id, creditLimit, true);
    case OpPlaceParlay(parlay, admitted, maxPayout) => PlaceParlayOps(b, parlay, admitted, maxPayout);
    case _ =>
  }

  lemma AcceptParlayOps(b: Book, id: Id, creditLimit: int, late: bool)
    requires AcceptParlay(b, id, creditLimit, late).Ok? && OwnRows(b)
    ensures var after := AcceptParlay(b, id, creditLimit, late).value;
      after == b || ParlayChange(b, id, if late then Earlier else Checked, after)
  {
  }

  lemma PlaceParlayOps(b: Book, r: ParlayRequest, admitted: bool, maxPayout: int)
    requires PlaceParlay(b, r, admitted, maxPayout).Ok? && OwnRows(b)
    ensures var after := PlaceParlay(b, r, admitted, maxPayout).value; after == b || ParlayChange(b, r.id, Checked, after)
  {
  }

  lemma CashOps(b: Book, op: Op)
    requires (op.OpSettleUp? || op.OpReverse?) && Perform(b, op).Ok?
    ensures var after := Perform(b, op).value; after == b || CashChange(b, after)
  {
  }

  lemma SettleOp(b: Book, market: Id, outcome: Option<map<Id, Grade>>, regrade: bool,
                 declared: bool, override: int, plan: Plan) returns (divisor: int)
    requires Sound(b) && IsPlan(b, market, plan)
    requires SettleWith(b, market, outcome, regrade, declared, override, plan).Ok?
    ensures var after := SettleWith(b, market, outcome, regrade, declared, override, plan).value;
      Sound(after) && (SettlementAllowed(b, market, outcome, divisor) ==> Settles(b, after))
    ensures market in b.markets
    ensures outcome.Some? ==> outcome.value.Keys == b.markets[market].lines.Keys
    ensures if outcome.Some? then DeadHeatDivisor(declared, override, outcome.value) == Ok(divisor) else divisor == 1
  {
    var ss, posted;
    SettleWithIsSafe(b, market, outcome, regrade, declared, override, plan);
    divisor, ss, posted := SettleWithSettles(b, market, outcome, regrade, declared, override, plan);
    var after := SettleWith(b, market, outcome, regrade, declared, override, plan).value;
    if SettlementAllowed(b, market, outcome, divisor) {
      assert SettleChange(b, market, outcome, divisor, ss, posted, after);
    }
  }

  lemma SettleOps(b: Book, op: Op)
    requires IsSettleOp(op)
    requires Sound(b) && Enabled(b, op) && Perform(b, op).Ok?
    ensures Sound(Perform(b, op).value) && Settles(b, Perform(b, op).value)
  {
    match op
    case OpSettle(id, outcome, deadHeat, plan) =>
      var divisor := SettleOp(b, id, Some(outcome), false, deadHeat, 0, plan);
      assert SettlementAllowed(b, id, Some(outcome), divisor);
    case OpVoidMarket(id, plan) =>
      var divisor := SettleOp(b, id, None, false, false, 0, plan);
      assert SettlementAllowed(b, id, None, divisor);
    case OpRegrade(id, plan) =>
      var record, largest := RegradeIsSettlement(b, id, plan);
      var divisor := SettleOp(b, id, Some(record.outcome), true, largest > 1, largest, plan);
      assert SettlementAllowed(b, id, Some(record.outcome), divisor);
    case _ =>
  }

  lemma MarketOpsAreSafe(b: Book, op: Op)
    requires op.OpCreate? || op.OpOpen? || op.OpClose? || op.OpMoveLine? || op.OpCloseWithoutAction?
    requires Sound(b) && Perform(b, op).Ok?
    ensures Sound(Perform(b, op).value)
  {
    MarketOps(b, op);
    var after := Perform(b, op).value;
    if after != b {
      MarketOperation(b, after.markets, b.records);
    }
  }

  lemma WagerOpsAreSafe(b: Book, op: Op)
    requires IsWagerOp(op) && Sound(b) && Perform(b, op).Ok?
    ensures Sound(Perform(b, op).value)
  {
    match op
    case OpPlace(wager, admitted) => PlaceIsSafe(b, wager, admitted, None);
    case OpPlaceLate(wager, admitted, odds) => PlaceIsSafe(b, wager, admitted, Some(odds));
    case OpAccept(id, creditLimit) => AcceptIsSafe(b, id, creditLimit, false);
    case OpAcceptUnchecked(id, creditLimit) => AcceptIsSafe(b, id, creditLimit, true);
    case _ => ReleasesAreSafe(b, op);
  }

  lemma ReleasesAreSafe(b: Book, op: Op)
    requires op.OpReject? || op.OpCancel? || op.OpReduce? || op.OpVoid?
    requires Sound(b) && Perform(b, op).Ok?
    ensures Sound(Perform(b, op).value)
  {
    match op
    case OpReject(id, reason) => RejectIsSafe(b, id, reason);
    case OpCancel(id, user) => RejectIsSafe(b, id, CANCEL_REASON);
    case OpReduce(id, newStake) => ReduceIsSafe(b, id, newStake);
    case OpVoid(id) => VoidIsSafe(b, id);
    case _ =>
  }

  lemma ParlayOpsAreSafe(b: Book, op: Op)
    requires IsParlayOp(op) && Sound(b) && Perform(b, op).Ok?
    ensures Sound(Perform(b, op).value)
  {
    match op
    case OpPlaceParlay(parlay, admitted, maxPayout) => PlaceParlayIsSafe(b, parlay, admitted, maxPayout);
    case OpAcceptParlay(id, creditLimit) => AcceptParlayIsSafe(b, id, creditLimit, false);
    case OpAcceptParlayLate(id, creditLimit) => AcceptParlayIsSafe(b, id, creditLimit, true);
    case OpRejectParlay(id) => RejectParlayIsSafe(b, id);
    case _ =>
  }

  lemma CashOpsAreSafe(b: Book, op: Op)
    requires op.OpSettleUp? || op.OpReverse?
    requires Sound(b) && KindsMatch(b.log) && Perform(b, op).Ok?
    ensures Sound(Perform(b, op).value)
  {
    match op
    case OpSettleUp(id, user, direction, amount) => RecordSettlementIsSafe(b, id, user, direction, amount);
    case OpReverse(id) => ReverseIsSafe(b, id);
    case _ =>
  }

  lemma StepCommits(b: Book, op: Op)
    requires Enabled(b, op) && Perform(b, op).Ok?
    ensures Step(b, op) == Perform(b, op).value
  {
  }

  predicate IsSettleOp(op: Op) {
    op.OpSettle? || op.OpVoidMarket? || op.OpRegrade?
  }

  /** Every step keeps the books sound and is one of the five changes. */
  lemma StepIsAChange(b: Book, op: Op)
    requires Sound(b) && KindsMatch(b.log)
    ensures Sound(Step(b, op)) && Change(b, CheckOf(op), Step(b, op))
  {
    if Enabled(b, op) && Perform(b, op).Ok? {
      SoundRows(b);
      StepCommits(b, op);
      if IsSettleOp(op) {
        SettleOps(b, op);
      } else {
        OrdinaryStep(b, op);
      }
    }
  }

  lemma SoundRows(b: Book)
    requires Sound(b)
    ensures OwnRows(b)
  {
  }

  lemma OrdinaryStep(b: Book, op: Op)
    requires Sound(b) && KindsMatch(b.log) && OwnRows(b) && Perform(b, op).Ok?
    requires !IsSettleOp(op)
    ensures Sound(Perform(b, op).value) && Change(b, CheckOf(op), Perform(b, op).value)
  {
    if op.OpCreate? || op.OpOpen? || op.OpClose? || op.OpMoveLine? || op.OpCloseWithoutAction? {
      MarketOps(b, op);
      MarketOpsAreSafe(b, op);
    } else if IsWagerOp(op) {
      WagerOps(b, op);
      WagerOpsAreSafe(b, op);
    } else if op.OpSettleUp? || op.OpReverse? {
      CashOps(b, op);
      CashOpsAreSafe(b, op);
    } else {
      ParlayOps(b, op);
      ParlayOpsAreSafe(b, op);
    }
  }
}
