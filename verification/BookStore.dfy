/** The store itself: tables updated in place, one method per operation, each
    of which commits or leaves every table as it was. `history` records the
    operations, so that what holds over runs holds of the store. */
module BookStore {
  import opened Results
  import opened Ledger
  import opened Wagers
  import opened Settlement
  import opened Parlays
  import opened BookState
  import opened BookSettlement
  import opened BookChanges
  import opened BookRuns
  import opened SettlementTx

  /** The operation's outcome: its new book, or its error and no change. */
  predicate Commits(before: Book, outcome: Result<Book>, error: Option<Error>, after: Book) {
    match outcome
    case Ok(b) => error == None && after == b
    case Err(e) => error == Some(e) && after == before
  }

  lemma Extends(history: seq<Op>, op: Op, error: Option<Error>, after: Book)
    requires Commits(Run(history), Perform(Run(history), op), error, after)
    requires error.None? ==> Enabled(Run(history), op)
    ensures after == Run(history + [op])
  {
    assert (history + [op])[..|history|] == history;
  }

  /** ReverseAdjustment's loop. */
  method Negate(postings: seq<Posting>) returns (negated: seq<Posting>)
    ensures negated == Negated(postings)
  {
    negated := [];
    for i := 0 to |postings|
      invariant negated == Negated(postings[..i])
    {
      assert postings[..i + 1][..i] == postings[..i];
      var posting := postings[i];
      negated := negated + [Posting(posting.account, Money(-posting.amount.cents, posting.amount.currency))];
    }
    assert postings[..|postings|] == postings;
  }

  class Store {
    var markets: map<Id, Market>
    var wagers: map<Id, Wager>
    var parlays: map<Id, Parlay>
    var records: map<Id, seq<Record>>
    var log: seq<Txn>
    ghost var history: seq<Op>

    function State(): Book
      reads this
    {
      Book(markets, wagers, parlays, records, log)
    }

    ghost predicate Valid()
      reads this
    {
      State() == Run(history)
    }

    constructor ()
      ensures Valid() && State() == EmptyBook
    {
      markets, wagers, parlays, records, log := map[], map[], map[], map[], [];
      history := [];
    }

    // ---- Markets -----------------------------------------------------------------------

    method CloseMarket(id: Id) returns (error: Option<Error>)
      requires Valid()
      modifies this`markets, this`history
      ensures Valid() && history == old(history) + [OpClose(id)]
      ensures Commits(old(State()), BookState.CloseMarket(old(State()), id), error, State())
    {
      error := None;
      if id !in markets {
        error := Some(NotFound);
      } else if markets[id].state == Open {
        markets := markets[id := markets[id].(state := Closed)];
      } else if markets[id].state != Closed {
        error := Some(NotSettleable);
      }
      Extends(history, OpClose(id), error, State());
      history := history + [OpClose(id)];
    }

    /** Closing a market nobody bet on: the live-wager count runs behind the
        market's lock. */
    method CloseMarketWithoutAction(id: Id) returns (error: Option<Error>)
      requires Valid()
      modifies this`markets, this`history
      ensures Valid() && history == old(history) + [OpCloseWithoutAction(id)]
      ensures Commits(old(State()), CloseWithoutAction(old(State()), id), error, State())
    {
      error := None;
      if id !in markets {
        error := Some(NotFound);
      } else if markets[id].isMatch || (markets[id].state != Closed && markets[id].state != SettlementPending) {
        error := Some(NotSettleable);
      } else {
        var live := CountLive(id);
        if live > 0 {
          error := Some(HasWagers);
        } else {
          markets := markets[id := markets[id].(state := NoAction)];
        }
      }
      Extends(history, OpCloseWithoutAction(id), error, State());
      history := history + [OpCloseWithoutAction(id)];
    }

    method CountLive(market: Id) returns (count: nat)
      ensures count > 0 <==> HasLiveWager(State(), market)
    {
      count := 0;
      var rest := wagers.Keys;
      while rest != {}
        invariant rest <= wagers.Keys
        invariant count > 0 <==> exists id :: id in wagers && id !in rest && IsLiveOn(wagers[id], market)
        decreases rest
      {
        var id :| id in rest;
        rest := rest - {id};
        if IsLiveOn(wagers[id], market) {
          count := count + 1;
        }
      }
      assert HasLiveWager(State(), market) <==> exists id :: id in wagers && IsLiveOn(wagers[id], market);
    }

    // ---- Single wagers ----------------------------------------------------------------------

    /** insertLedgerTransaction. */
    method InsertTransaction(t: Txn) returns (error: Option<Error>)
      modifies this`log
      ensures Commits(old(State()), Post(old(State()), t), error, State())
    {
      var verdict := ValidatePostings(t.currency, t.postings);
      if verdict.Err? {
        return Some(Unbalanced);
      }
      if HasKey(log, t.key) {
        return Some(AlreadyExists);
      }
      log := log + [t];
      return None;
    }

    method PlaceWager(request: WagerRequest, admitted: bool, earlier: Option<int>) returns (error: Option<Error>)
      requires Valid()
      modifies this`wagers, this`history
      ensures Valid() && history == old(history) + [PlaceOp(request, admitted, earlier)]
      ensures Commits(old(State()), BookState.PlaceWager(old(State()), request, admitted, earlier), error, State())
    {
      error := TryPlace(request, admitted, earlier);
      Extends(history, PlaceOp(request, admitted, earlier), error, State());
      history := history + [PlaceOp(request, admitted, earlier)];
    }

    /** insertWager on conflict of (user, key): the stored wager must be the same. */
    method TryPlace(request: WagerRequest, admitted: bool, earlier: Option<int>) returns (error: Option<Error>)
      requires Valid()
      modifies this`wagers
      ensures Commits(old(State()), BookState.PlaceWager(old(State()), request, admitted, earlier), error, State())
    {
      if request.market !in markets || request.selection !in markets[request.market].lines {
        return Some(NotFound);
      }
      var market := markets[request.market];
      if (if earlier.Some? then market.state == Draft else market.state != Open) || !admitted {
        return Some(MarketNotOpen);
      }
      if request.stake.cents <= 0 || request.stake.currency != market.currency {
        return Some(InvalidStake);
      }
      var odds := if earlier.Some? then earlier.value else market.lines[request.selection];
      var profit := Profit(odds, request.stake.cents);
      if profit.Err? {
        return Some(profit.error);
      }
      if profit.value <= 0 {
        return Some(InvalidStake);
      }
      var wager := Wager(request.id, request.user, request.market, request.selection, request.funding,
                         request.stake, odds, profit.value, Pending, request.key, "");
      if exists id :: id in wagers && wagers[id].user == request.user && wagers[id].key == request.key {
        if exists id :: id in wagers && wagers[id].user == request.user && wagers[id].key == request.key
                        && SameWager(wagers[id], wager) {
          return None;
        }
        return Some(IdempotencyConflict);
      }
      if request.id in wagers {
        return Some(AlreadyExists);
      }
      wagers := wagers[request.id := wager];
      return None;
    }

    method AcceptWager(id: Id, creditLimit: int, unchecked: bool) returns (error: Option<Error>)
      requires Valid()
      modifies this`wagers, this`log, this`history
      ensures Valid() && history == old(history) + [if unchecked then OpAcceptUnchecked(id, creditLimit) else OpAccept(id, creditLimit)]
      ensures Commits(old(State()), BookState.AcceptWager(old(State()), id, creditLimit, unchecked), error, State())
    {
      error := TryAccept(id, creditLimit, unchecked);
      ghost var op := if unchecked then OpAcceptUnchecked(id, creditLimit) else OpAccept(id, creditLimit);
      Extends(history, op, error, State());
      history := history + [op];
    }

    method TryAccept(id: Id, creditLimit: int, unchecked: bool) returns (error: Option<Error>)
      requires Valid()
      modifies this`wagers, this`log
      ensures Commits(old(State()), BookState.AcceptWager(old(State()), id, creditLimit, unchecked), error, State())
    {
      if id !in wagers {
        return Some(NotFound);
      }
      var wager := wagers[id];
      OwnId(id);
      if wager.state == Accepted {
        return if AcceptanceVerifies(State(), wager) then None else Some(IdempotencyConflict);
      }
      if wager.market !in markets {
        return Some(NotFound);
      }
      if !unchecked && markets[wager.market].state in {Settled, Voided, Cancelled} {
        return Some(MarketDecided);
      }
      if Balance(State(), FundingAccount(wager)) + creditLimit < wager.stake.cents {
        return Some(InsufficientFunds);
      }
      if wager.state != Pending {
        return Some(Transition);
      }
      error := InsertTransaction(AcceptanceTxn(wager));
      if error.None? {
        wagers := wagers[id := wager.(state := Accepted)];
      }
    }

    lemma OwnId(id: Id)
      requires Valid() && id in wagers
      ensures wagers[id].id == id
    {
      RunIsHealthy(history);
      SoundWager(State(), id);
    }

    method RejectWager(id: Id, reason: string) returns (error: Option<Error>)
      requires Valid()
      modifies this`wagers, this`history
      ensures Valid() && history == old(history) + [OpReject(id, reason)]
      ensures Commits(old(State()), BookState.RejectWager(old(State()), id, reason), error, State())
    {
      error := None;
      if id !in wagers {
        error := Some(NotFound);
      } else {
        var wager := wagers[id];
        OwnId(id);
        if wager.state == Rejected {
          error := if wager.reason == reason then None else Some(IdempotencyConflict);
        } else if wager.state != Pending {
          error := Some(Transition);
        } else if reason == "" {
          error := Some(Invalid);
        } else {
          wagers := wagers[id := wager.(state := Rejected, reason := reason)];
        }
      }
      Extends(history, OpReject(id, reason), error, State());
      history := history + [OpReject(id, reason)];
    }

    method ReduceWager(id: Id, newStake: int) returns (error: Option<Error>)
      requires Valid()
      modifies this`wagers, this`log, this`history
      ensures Valid() && history == old(history) + [OpReduce(id, newStake)]
      ensures Commits(old(State()), BookState.ReduceWager(old(State()), id, newStake), error, State())
    {
      error := TryReduce(id, newStake);
      Extends(history, OpReduce(id, newStake), error, State());
      history := history + [OpReduce(id, newStake)];
    }

    method TryReduce(id: Id, newStake: int) returns (error: Option<Error>)
      requires Valid()
      modifies this`wagers, this`log
      ensures Commits(old(State()), BookState.ReduceWager(old(State()), id, newStake), error, State())
    {
      if id !in wagers {
        return Some(NotFound);
      }
      var wager := wagers[id];
      OwnId(id);
      if wager.market !in markets {
        return Some(NotFound);
      }
      if markets[wager.market].state in {Settled, Voided, Cancelled} {
        return Some(MarketDecided);
      }
      if HasKey(log, WagerReduction(id, newStake)) {
        return None;
      }
      if wager.state != Accepted {
        return Some(Transition);
      }
      if newStake <= 0 || newStake >= wager.stake.cents {
        return Some(InvalidStake);
      }
      var profit := Profit(wager.odds, newStake);
      if profit.Err? {
        return Some(profit.error);
      }
      error := InsertTransaction(ReductionTxn(wager, newStake));
      if error.None? {
        wagers := wagers[id := wager.(stake := Money(newStake, wager.stake.currency), potentialProfit := profit.value)];
      }
    }

    method VoidWager(id: Id) returns (error: Option<Error>)
      requires Valid()
      modifies this`wagers, this`log, this`history
      ensures Valid() && history == old(history) + [OpVoid(id)]
      ensures Commits(old(State()), BookState.VoidWager(old(State()), id), error, State())
    {
      error := TryVoid(id);
      Extends(history, OpVoid(id), error, State());
      history := history + [OpVoid(id)];
    }

    method TryVoid(id: Id) returns (error: Option<Error>)
      requires Valid()
      modifies this`wagers, this`log
      ensures Commits(old(State()), BookState.VoidWager(old(State()), id), error, State())
    {
      if id !in wagers {
        return Some(NotFound);
      }
      var wager := wagers[id];
      OwnId(id);
      if wager.state == Refunded && HasKey(log, WagerVoid(id)) {
        return None;
      }
      if wager.state != Accepted {
        return Some(Transition);
      }
      error := InsertTransaction(VoidTxn(wager));
      if error.None? {
        wagers := wagers[id := wager.(state := Refunded)];
      }
    }

    // ---- Parlays -------------------------------------------------------------------------------

    method PlaceParlay(request: ParlayRequest, admitted: bool, maxPayout: int) returns (error: Option<Error>)
      requires Valid()
      modifies this`parlays, this`history
      ensures Valid() && history == old(history) + [OpPlaceParlay(request, admitted, maxPayout)]
      ensures Commits(old(State()), BookState.PlaceParlay(old(State()), request, admitted, maxPayout), error, State())
    {
      error := TryPlaceParlay(request, admitted, maxPayout);
      Extends(history, OpPlaceParlay(request, admitted, maxPayout), error, State());
      history := history + [OpPlaceParlay(request, admitted, maxPayout)];
    }

    /** The leg loop: every pick open, of a match, in the currency, and no two on
        one market; then the offered line of each is snapshotted. */
    method SnapshotLegs(picks: seq<(Id, Id)>, currency: Currency) returns (legs: Option<seq<Leg>>)
      ensures legs.Some? <==> PicksEligible(State(), picks, currency)
      ensures legs.Some? ==> legs.value == LegsFor(State(), picks, currency)
    {
      var done: seq<Leg> := [];
      for i := 0 to |picks|
        invariant |done| == i && PicksEligible(State(), picks[..i], currency)
        invariant forall k :: 0 <= k < i ==>
          done[k] == Leg(picks[k].0, picks[k].1, markets[picks[k].0].lines[picks[k].1], None)
        invariant forall k :: 0 <= k < i ==> done[k].market == picks[k].0
      {
        var pick := picks[i];
        if !PickEligible(State(), pick, currency) || exists k :: 0 <= k < i && done[k].market == pick.0 {
          assert !PicksEligible(State(), picks, currency);
          return None;
        }
        done := done + [Leg(pick.0, pick.1, markets[pick.0].lines[pick.1], None)];
      }
      assert picks[..|picks|] == picks;
      assert done == LegsFor(State(), picks, currency);
      return Some(done);
    }

    method TryPlaceParlay(request: ParlayRequest, admitted: bool, maxPayout: int) returns (error: Option<Error>)
      requires Valid()
      modifies this`parlays
      ensures Commits(old(State()), BookState.PlaceParlay(old(State()), request, admitted, maxPayout), error, State())
    {
      if |request.picks| < MIN_LEGS {
        return Some(TooFewLegs);
      }
      if |request.picks| > MAX_LEGS {
        return Some(TooManyLegs);
      }
      if request.stake.cents <= 0 {
        return Some(InvalidStake);
      }
      var snapshot := SnapshotLegs(request.picks, request.stake.currency);
      if !admitted || snapshot.None? {
        return Some(Invalid);
      }
      var price := ParlayOddsFor(LegOdds(snapshot.value), DEFAULT_JUICE);
      if price.Err? {
        return Some(price.error);
      }
      var profit := Profit(price.value, request.stake.cents);
      if profit.Err? {
        return Some(profit.error);
      }
      if profit.value <= 0 || (maxPayout > 0 && profit.value > maxPayout) {
        return Some(InvalidStake);
      }
      var parlay := Parlay(request.id, request.user, request.funding, request.stake, price.value, profit.value,
                           snapshot.value, Pending, request.key);
      if exists id :: id in parlays && parlays[id].user == request.user && parlays[id].key == request.key {
        if exists id :: id in parlays && parlays[id].user == request.user && parlays[id].key == request.key
                        && SameParlay(parlays[id], parlay) {
          return None;
        }
        return Some(IdempotencyConflict);
      }
      if request.id in parlays {
        return Some(AlreadyExists);
      }
      parlays := parlays[request.id := parlay];
      return None;
    }

    function AcceptParlayOp(id: Id, creditLimit: int, late: bool): Op {
      if late then OpAcceptParlayLate(id, creditLimit) else OpAcceptParlay(id, creditLimit)
    }

    method AcceptParlay(id: Id, creditLimit: int, late: bool) returns (error: Option<Error>)
      requires Valid()
      modifies this`parlays, this`log, this`history
      ensures Valid() && history == old(history) + [AcceptParlayOp(id, creditLimit, late)]
      ensures Commits(old(State()), BookState.AcceptParlay(old(State()), id, creditLimit, late), error, State())
    {
      error := TryAcceptParlay(id, creditLimit, late);
      Extends(history, AcceptParlayOp(id, creditLimit, late), error, State());
      history := history + [AcceptParlayOp(id, creditLimit, late)];
    }

    lemma OwnParlayId(id: Id)
      requires Valid() && id in parlays
      ensures parlays[id].id == id
    {
      RunIsHealthy(history);
      OwnParlayIds(State());
    }

    method TryAcceptParlay(id: Id, creditLimit: int, late: bool) returns (error: Option<Error>)
      requires Valid()
      modifies this`parlays, this`log
      ensures Commits(old(State()), BookState.AcceptParlay(old(State()), id, creditLimit, late), error, State())
    {
      if id !in parlays {
        return Some(NotFound);
      }
      var parlay := parlays[id];
      OwnParlayId(id);
      if parlay.state == Accepted {
        return None;
      }
      if parlay.state != Pending {
        return Some(Transition);
      }
      for i := 0 to |parlay.legs|
        invariant late || forall k :: 0 <= k < i ==> !LegDecided(State(), parlay.legs[k])
      {
        var market := parlay.legs[i].market;
        if !late && market in markets && IsDecided(markets[market].state) {
          assert LegDecided(State(), parlay.legs[i]);
          return Some(MarketDecided);
        }
      }
      if Balance(State(), ParlayAccount(parlay)) + creditLimit < parlay.stake.cents {
        return Some(InsufficientFunds);
      }
      error := InsertTransaction(ParlayAcceptanceTxn(parlay));
      if error.None? {
        parlays := parlays[id := parlay.(state := Accepted)];
      }
    }

    method RejectParlay(id: Id) returns (error: Option<Error>)
      requires Valid()
      modifies this`parlays, this`history
      ensures Valid() && history == old(history) + [OpRejectParlay(id)]
      ensures Commits(old(State()), BookState.RejectParlay(old(State()), id), error, State())
    {
      error := None;
      if id !in parlays {
        error := Some(NotFound);
      } else if parlays[id].state != Pending {
        error := Some(Transition);
      } else {
        OwnParlayId(id);
        parlays := parlays[id := parlays[id].(state := Rejected)];
      }
      Extends(history, OpRejectParlay(id), error, State());
      history := history + [OpRejectParlay(id)];
    }

    // ---- Settle-ups ------------------------------------------------------------------------------

    method RecordSettlement(id: Id, user: Id, direction: Direction, amount: Money) returns (error: Option<Error>)
      requires Valid()
      modifies this`log, this`history
      ensures Valid() && history == old(history) + [OpSettleUp(id, user, direction, amount)]
      ensures Commits(old(State()), BookState.RecordSettlement(old(State()), id, user, direction, amount), error, State())
    {
      error := None;
      if HasKey(log, Adjustment(id)) {
      } else if !ValidStake(amount) {
        error := Some(InvalidStake);
      } else {
        error := InsertTransaction(AdjustmentTxn(id, user, direction, amount));
      }
      Extends(history, OpSettleUp(id, user, direction, amount), error, State());
      history := history + [OpSettleUp(id, user, direction, amount)];
    }

    method ReverseSettlement(id: Id) returns (error: Option<Error>)
      requires Valid()
      modifies this`log, this`history
      ensures Valid() && history == old(history) + [OpReverse(id)]
      ensures Commits(old(State()), BookState.ReverseSettlement(old(State()), id), error, State())
    {
      error := TryReverse(id);
      Extends(history, OpReverse(id), error, State());
      history := history + [OpReverse(id)];
    }

    method TryReverse(id: Id) returns (error: Option<Error>)
      modifies this`log
      ensures Commits(old(State()), BookState.ReverseSettlement(old(State()), id), error, State())
    {
      var original := Find(log, Adjustment(id));
      if original.None? {
        return Some(NotFound);
      }
      if HasKey(log, AdjustmentReversal(id)) {
        return Some(AlreadyExists);
      }
      var postings := Negate(original.value.postings);
      error := InsertTransaction(Txn(ReversalKind, AdjustmentReversal(id), original.value.currency, postings));
    }

    // ---- Settlement -------------------------------------------------------------------------------

    lemma OwnRowIds()
      requires Valid()
      ensures OwnRows(State())
    {
      RunIsHealthy(history);
      SoundRows(State());
    }

    method LoadWagers(market: Id) returns (rows: seq<Wager>)
      requires Valid()
      ensures DistinctIds(rows)
      ensures forall w :: w in rows <==> w.id in wagers && wagers[w.id] == w && w.market == market
    {
      OwnRowIds();
      rows := [];
      var rest := wagers.Keys;
      while rest != {}
        invariant rest <= wagers.Keys && DistinctIds(rows)
        invariant forall w :: w in rows <==> w.id in wagers && w.id !in rest && wagers[w.id] == w && w.market == market
        decreases rest
      {
        var id :| id in rest;
        rest := rest - {id};
        if wagers[id].market == market {
          rows := rows + [wagers[id]];
        }
      }
    }

    /** settleWith. `plan` is the order the rows happened to be met in. */
    method SettleWith(market: Id, outcome: Option<map<Id, Grade>>, regrade: bool, declared: bool, override: int)
      returns (error: Option<Error>, ghost plan: Plan)
      requires Valid()
      modifies this`markets, this`wagers, this`parlays, this`records, this`log
      ensures error.None? ==> IsPlan(old(State()), market, plan)
      ensures Commits(old(State()), BookState.SettleWith(old(State()), market, outcome, regrade, declared, override, plan),
                      error, State())
    {
      plan := Plan([], []);
      if market !in markets {
        return Some(NotFound), plan;
      }
      var divisor := CheckSettlement(market, outcome, regrade, declared, override);
      if divisor.Err? {
        assert Settles(market, outcome, regrade, declared, override, divisor, plan);
        return Some(divisor.error), plan;
      }
      var settled;
      settled, plan := SettleTables(market, outcome, divisor.value);
      assert Settles(market, outcome, regrade, declared, override, divisor, plan);
      if settled.Err? {
        return Some(settled.error), plan;
      }
      var b := settled.value;
      markets, wagers, parlays, records, log := b.markets, b.wagers, b.parlays, b.records, b.log;
      return None, plan;
    }

    /** The transaction's work on its own copy of the tables. */
    /** The settlement is that of the rows with this divisor, or this refusal. */
    ghost predicate Settles(market: Id, outcome: Option<map<Id, Grade>>, regrade: bool, declared: bool, override: int,
                            divisor: Result<int>, plan: Plan)
      reads this
    {
      BookState.SettleWith(State(), market, outcome, regrade, declared, override, plan)
        == if divisor.Ok? then SettleRows(State(), market, outcome, divisor.value, plan) else Err(divisor.error)
    }

    /** The state and outcome checks, and the divisor the outcome is paid with. */
    method CheckSettlement(market: Id, outcome: Option<map<Id, Grade>>, regrade: bool, declared: bool, override: int)
      returns (divisor: Result<int>)
      requires market in markets
      ensures forall plan :: Settles(market, outcome, regrade, declared, override, divisor, plan)
    {
      var state := markets[market].state;
      if outcome.Some? && state == Open {
        state := Closed;
      }
      if !SettleableState(state, outcome.Some?, regrade) {
        return Err(NotSettleable);
      }
      if outcome.None? {
        return Ok(1);
      }
      if outcome.value.Keys != markets[market].lines.Keys {
        return Err(IncompleteOutcome);
      }
      return DeadHeatDivisor(declared, override, outcome.value);
    }

    method SettleTables(market: Id, outcome: Option<map<Id, Grade>>, divisor: int)
      returns (settled: Result<Book>, ghost plan: Plan)
      requires Valid() && market in markets
      ensures settled.Ok? ==> IsPlan(State(), market, plan)
      ensures settled == SettleRows(State(), market, outcome, divisor, plan)
    {
      var rows := LoadWagers(market);
      var order;
      settled, order := SettleLoaded(State(), market, outcome, divisor, rows);
      plan := Plan(rows, order);
    }

    method SettleMarket(id: Id, outcome: map<Id, Grade>, deadHeat: bool) returns (error: Option<Error>, ghost plan: Plan)
      requires Valid()
      modifies this
      ensures Valid() && history == old(history) + [OpSettle(id, outcome, deadHeat, plan)]
      ensures error.None? ==> IsPlan(old(State()), id, plan)
      ensures Commits(old(State()), BookState.SettleWith(old(State()), id, Some(outcome), false, deadHeat, 0, plan), error, State())
    {
      error, plan := SettleWith(id, Some(outcome), false, deadHeat, 0);
      Extends(history, OpSettle(id, outcome, deadHeat, plan), error, State());
      history := history + [OpSettle(id, outcome, deadHeat, plan)];
    }

    method VoidMarket(id: Id) returns (error: Option<Error>, ghost plan: Plan)
      requires Valid()
      modifies this
      ensures Valid() && history == old(history) + [OpVoidMarket(id, plan)]
      ensures error.None? ==> IsPlan(old(State()), id, plan)
      ensures Commits(old(State()), BookState.SettleWith(old(State()), id, None, false, false, 0, plan), error, State())
    {
      error, plan := SettleWith(id, None, false, false, 0);
      Extends(history, OpVoidMarket(id, plan), error, State());
      history := history + [OpVoidMarket(id, plan)];
    }

    /** StrandedWagers: accepted wagers of a settled market whose selection has a
        recorded outcome. */
    method CountStranded(market: Id) returns (count: nat)
      ensures count > 0 <==> HasStranded(State(), market)
    {
      count := 0;
      var last := LastGraded(Records(State(), market));
      if market !in markets || markets[market].state != Settled || last.None? {
        return;
      }
      var rest := wagers.Keys;
      while rest != {}
        invariant rest <= wagers.Keys
        invariant count > 0 <==> exists id :: id in wagers && id !in rest && IsStranded(wagers[id], market, last.value.outcome)
        decreases rest
      {
        var id :| id in rest;
        rest := rest - {id};
        if IsStranded(wagers[id], market, last.value.outcome) {
          count := count + 1;
        }
      }
      assert HasStranded(State(), market) <==> exists id :: id in wagers && IsStranded(wagers[id], market, last.value.outcome);
    }

    method TryRegrade(id: Id) returns (error: Option<Error>, ghost plan: Plan)
      requires Valid()
      modifies this`markets, this`wagers, this`parlays, this`records, this`log
      ensures error.None? ==> IsPlan(old(State()), id, plan)
      ensures Commits(old(State()), Regrade(old(State()), id, plan), error, State())
    {
      plan := Plan([], []);
      var stranded := CountStranded(id);
      if stranded == 0 {
        return Some(NothingToRegrade), plan;
      }
      var record := LastGraded(Records(State(), id)).value;
      if record.outcome == map[] {
        return Some(NothingToRegrade), plan;
      }
      var divisor := RecordedDivisor(record.divisors);
      assert divisor == LargestDivisor(record.divisors);
      error, plan := SettleWith(id, Some(record.outcome), true, divisor > 1, divisor);
    }

    method RegradeStrandedWagers(id: Id) returns (error: Option<Error>, ghost plan: Plan)
      requires Valid()
      modifies this
      ensures Valid() && history == old(history) + [OpRegrade(id, plan)]
      ensures error.None? ==> IsPlan(old(State()), id, plan)
      ensures Commits(old(State()), Regrade(old(State()), id, plan), error, State())
    {
      error, plan := TryRegrade(id);
      Extends(history, OpRegrade(id, plan), error, State());
      history := history + [OpRegrade(id, plan)];
    }
  }

  /** Posting settlements touches no market and no parlay. */
  lemma {:induction false} AppliedTables(b: Book, ss: seq<WagerSettlement>, version: nat)
    requires ApplySettlements(b, ss, version).Ok?
    ensures ApplySettlements(b, ss, version).value.markets == b.markets
    ensures ApplySettlements(b, ss, version).value.parlays == b.parlays
    ensures ApplySettlements(b, ss, version).value.records == b.records
  {
    if ss != [] {
      AppliedTables(b, ss[..|ss| - 1], version);
    }
  }

  /** SettleMarket or VoidMarket over the loaded rows. */
  method GradeOwnRows(market: Id, rows: seq<Wager>, grades: map<Id, Grade>, divisor: int)
    returns (graded: Result<seq<WagerSettlement>>)
    requires forall w :: w in rows ==> w.market == market
    ensures graded == SettleEach(Sorted(AcceptedOf(rows)), grades, divisor)
  {
    var totals;
    graded, totals := GradeWagers(market, rows, grades, divisor);
  }

  method GradeLoaded(b: Book, market: Id, outcome: Option<map<Id, Grade>>, divisor: int, rows: seq<Wager>)
    returns (r: Result<Book>)
    requires forall w :: w in rows ==> w.market == market
    ensures r == GradeRows(b, market, outcome, divisor, rows)
  {
    var graded := GradeOwnRows(market, rows, GradeMap(rows, outcome), divisor);
    r := PostGraded(b, graded, |Records(b, market)| + 1);
    RowsAreGraded(b, market, outcome, divisor, rows, graded);
  }

  lemma RowsAreGraded(b: Book, market: Id, outcome: Option<map<Id, Grade>>, divisor: int, rows: seq<Wager>,
                      graded: Result<seq<WagerSettlement>>)
    requires graded == SettleEach(Sorted(AcceptedOf(rows)), GradeMap(rows, outcome), divisor)
    ensures GradeRows(b, market, outcome, divisor, rows) == PostAll(b, graded, |Records(b, market)| + 1)
  {
  }

  method PostGraded(b: Book, graded: Result<seq<WagerSettlement>>, version: nat) returns (r: Result<Book>)
    ensures r == PostAll(b, graded, version)
  {
    if graded.Err? {
      return Err(graded.error);
    }
    r := PostSettlements(b, graded.value, version);
  }

  lemma GradedTables(b: Book, market: Id, outcome: Option<map<Id, Grade>>, divisor: int, rows: seq<Wager>)
    requires GradeRows(b, market, outcome, divisor, rows).Ok?
    ensures GradeRows(b, market, outcome, divisor, rows).value.parlays == b.parlays
  {
    var ss := SettleEach(Sorted(AcceptedOf(rows)), GradeMap(rows, outcome), divisor).value;
    AppliedTables(b, ss, |Records(b, market)| + 1);
  }

  method SettleLoaded(b: Book, market: Id, outcome: Option<map<Id, Grade>>, divisor: int, rows: seq<Wager>)
    returns (settled: Result<Book>, order: seq<Id>)
    requires forall w :: w in rows ==> w.market == market
    ensures settled.Ok? ==> Enumerates(order, Affected(b, market))
    ensures settled == SettleRows(b, market, outcome, divisor, Plan(rows, order))
  {
    var graded := GradeLoaded(b, market, outcome, divisor, rows);
    if graded.Err? {
      return Err(graded.error), [];
    }
    settled, order := FinishTables(graded.value, market, outcome, divisor);
    GradedTables(b, market, outcome, divisor, rows);
    AffectedBy(b, graded.value, market);
  }

  lemma AffectedBy(b: Book, after: Book, market: Id)
    requires after.parlays == b.parlays
    ensures Affected(after, market) == Affected(b, market)
  {
  }

  /** Record the settlement, decide the market, resolve its parlays. */
  method FinishTables(b: Book, market: Id, outcome: Option<map<Id, Grade>>, divisor: int)
    returns (r: Result<Book>, order: seq<Id>)
    ensures r.Ok? ==> Enumerates(order, Affected(b, market))
    ensures r == Finish(b, market, outcome, divisor, order)
  {
    if market !in b.markets {
      return Err(NotFound), [];
    }
    var work := b.(records := b.records[market := Records(b, market) + [MarketRecord(outcome, divisor)]]);
    work := SetState(work, market, if outcome.Some? then Settled else Voided);
    r, order := ResolveParlayLegs(work, market, outcome);
    AffectedBy(b, work, market);
  }

  predicate IsStranded(w: Wager, market: Id, outcome: map<Id, Grade>) {
    w.market == market && w.state == Accepted && w.selection in outcome
  }

  function PlaceOp(request: WagerRequest, admitted: bool, earlier: Option<int>): Op {
    if earlier.Some? then OpPlaceLate(request, admitted, earlier.value) else OpPlace(request, admitted)
  }

  predicate IsLiveOn(w: Wager, market: Id) {
    w.market == market && (w.state == Pending || w.state == Accepted)
  }
}
