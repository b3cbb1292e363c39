/** What a placement is checked against (internal/betting/place.go). */
module Placement {
  import opened Results
  import opened Ledger
  import opened Wagers
  import opened BookState

  // ---- The placement command -----------------------------------------------------------

  /** Bars a member from one selection, or from the whole market. */
  datatype Restriction = Restriction(user: Id, selection: Option<Id>)

  predicate Restricts(r: Restriction, user: Id, selection: Id) {
    r.user == user && (r.selection.None? || r.selection == Some(selection))
  }

  /** A cap of zero is no cap. */
  datatype Cap = Cap(max: int, existing: int)

  predicate HasRoom(cap: Cap, stake: int) {
    cap.max > 0 ==> cap.existing + stake <= cap.max
  }

  datatype Command = Command(
    user: Id,
    selection: Id,
    state: MarketState,
    opensAt: Option<int>,
    closesAt: int,
    now: int,
    active: bool,
    restrictions: seq<Restriction>,
    stake: Money,
    currency: Currency,
    memberOnMarket: Cap,
    memberOnSide: Cap,
    bookOnSide: Cap,
    maxPayout: int,
    odds: int)

  predicate IsRestricted(c: Command) {
    exists i :: 0 <= i < |c.restrictions| && Restricts(c.restrictions[i], c.user, c.selection)
  }

  /** What the book's tables do not decide: times, restrictions, caps and the
      payout ceiling. */
  predicate IsAllowed(c: Command) {
    && (c.opensAt.Some? ==> c.opensAt.value <= c.now) && c.now < c.closesAt
    && c.active && !IsRestricted(c)
    && HasRoom(c.memberOnMarket, c.stake.cents) && HasRoom(c.memberOnSide, c.stake.cents) && HasRoom(c.bookOnSide, c.stake.cents)
    && (c.maxPayout > 0 && ValidOdds(c.odds) ==> NearestCents(c.odds, c.stake.cents) <= c.maxPayout)
  }

  /** Everything a placement needs, in the terms of the command. */
  predicate IsAdmissible(c: Command) {
    && IsAllowed(c) && c.state == Open
    && c.stake.cents > 0 && c.stake.currency == c.currency
    && ValidOdds(c.odds) && c.stake.cents * PayoutRatio(c.odds).0 <= MAX_INT64 && PaysSomething(c.odds, c.stake.cents)
  }

  /** betting.PlaceWager: the profit snapshot, or the first refusal. */
  method CheckPlacement(c: Command) returns (profit: Result<int>)
    ensures profit.Ok? <==> IsAdmissible(c)
    ensures profit.Ok? ==> EarnsAt(c.odds, c.stake.cents, profit.value) && profit.value > 0
    ensures profit.Ok? <==>
      && c.state == Open && (c.opensAt.Some? ==> c.now >= c.opensAt.value) && c.now < c.closesAt && c.active
      && (forall i :: 0 <= i < |c.restrictions| && c.restrictions[i].user == c.user ==>
            c.restrictions[i].selection.Some? && c.restrictions[i].selection.value != c.selection)
      && c.stake.cents > 0 && c.stake.currency == c.currency && CanStrike(c.odds, c.stake.cents)
      && (c.memberOnMarket.max > 0 ==> c.memberOnMarket.existing + c.stake.cents <= c.memberOnMarket.max)
      && (c.memberOnSide.max > 0 ==> c.memberOnSide.existing + c.stake.cents <= c.memberOnSide.max)
      && (c.bookOnSide.max > 0 ==> c.bookOnSide.existing + c.stake.cents <= c.bookOnSide.max)
      && (c.maxPayout > 0 ==> EarnsAtMost(c.odds, c.stake.cents, c.maxPayout))
  {
    if c.state != Open {
      return Err(MarketNotOpen);
    }
    if c.opensAt.Some? && c.now < c.opensAt.value {
      return Err(MarketNotOpen);
    }
    if c.now >= c.closesAt {
      return Err(MarketNotOpen);
    }
    if !c.active {
      return Err(Invalid);
    }
    for i := 0 to |c.restrictions|
      invariant forall k :: 0 <= k < i ==> !Restricts(c.restrictions[k], c.user, c.selection)
    {
      if Restricts(c.restrictions[i], c.user, c.selection) {
        return Err(Unauthorized);
      }
    }
    if c.stake.cents <= 0 || c.stake.currency != c.currency {
      return Err(InvalidStake);
    }
    if !HasRoom(c.memberOnMarket, c.stake.cents) || !HasRoom(c.memberOnSide, c.stake.cents) {
      return Err(InvalidStake);
    }
    if !HasRoom(c.bookOnSide, c.stake.cents) {
      return Err(InvalidStake);
    }
    if !ValidOdds(c.odds) {
      return Err(InvalidOdds);
    }
    ProfitExactly(c.odds, c.stake.cents);
    ProfitFailsExactlyOnOverflow(c.odds, c.stake.cents);
    ProfitByLine(c.odds, c.stake.cents);
    profit := Profit(c.odds, c.stake.cents);
    if profit.Err? {
      return;
    }
    if profit.value <= 0 {
      return Err(InvalidStake);
    }
    if c.maxPayout > 0 {
      EarnsAtMostExactly(c.odds, c.stake.cents, c.maxPayout);
    }
    if c.maxPayout > 0 && profit.value > c.maxPayout {
      return Err(InvalidStake);
    }
  }

  // ---- Against the book -----------------------------------------------------------------

  /** The command the store builds from its rows. */
  predicate IsFor(c: Command, b: Book, r: WagerRequest) {
    && r.market in b.markets && r.selection in b.markets[r.market].lines
    && c.user == r.user && c.selection == r.selection && c.stake == r.stake
    && c.state == b.markets[r.market].state && c.currency == b.markets[r.market].currency
    && c.odds == b.markets[r.market].lines[r.selection]
  }

  predicate IsNew(b: Book, r: WagerRequest) {
    r.id !in b.wagers && forall id :: id in b.wagers ==> b.wagers[id].user != r.user || b.wagers[id].key != r.key
  }

  /** A new wager goes onto the book exactly when its command is admissible. */
  lemma PlacedExactly(b: Book, r: WagerRequest, c: Command)
    requires IsFor(c, b, r) && IsNew(b, r)
    ensures PlaceWager(b, r, IsAllowed(c), None).Ok? <==> IsAdmissible(c)
    ensures IsAdmissible(c) ==> PlaceWager(b, r, IsAllowed(c), None).value.wagers.Keys == b.wagers.Keys + {r.id}
  {
    if ValidOdds(c.odds) && c.stake.cents > 0 {
      ProfitExactly(c.odds, c.stake.cents);
      ProfitFailsExactlyOnOverflow(c.odds, c.stake.cents);
    }
  }
}
