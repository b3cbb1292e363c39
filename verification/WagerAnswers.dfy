/** What the operations on single wagers answer, in the terms of the request and
    the tables (internal/bettingpg: place.go, accept.go, reducewager.go,
    voidwager.go): when each commits, the row it leaves and what it moves. */
module WagerAnswers {
  import opened Results
  import opened Ledger
  import opened Wagers
  import opened Settlement
  import opened Totals
  import opened BookState
  import opened BookSafety
  import BookHistory
  import opened BookRuns

  // ---- Placement -----------------------------------------------------------------------

  lemma StruckExactly(line: int, stake: int)
    requires stake > 0
    ensures CanStrike(line, stake) <==> Profit(line, stake).Ok? && Profit(line, stake).value > 0
  {
    ProfitByLine(line, stake);
  }

  predicate IsOffered(b: Book, market: Id, selection: Id) {
    market in b.markets && selection in b.markets[market].lines
  }

  function LineTaken(b: Book, r: WagerRequest, earlier: Option<int>): int
    requires IsOffered(b, r.market, r.selection)
  {
    if earlier.Some? then earlier.value else b.markets[r.market].lines[r.selection]
  }

  /** A new wager is stored exactly when it is admitted on an offered side of an
      open market (one read open earlier), in its currency, and can be struck. */
  lemma PlaceCommitsExactly(b: Book, r: WagerRequest, admitted: bool, earlier: Option<int>)
    requires r.id !in b.wagers && forall id :: id in b.wagers ==> b.wagers[id].user != r.user || b.wagers[id].key != r.key
    ensures PlaceWager(b, r, admitted, earlier).Ok? <==>
      && IsOffered(b, r.market, r.selection) && admitted
      && (if earlier.Some? then b.markets[r.market].state != Draft else b.markets[r.market].state == Open)
      && r.stake.cents > 0 && r.stake.currency == b.markets[r.market].currency
      && CanStrike(LineTaken(b, r, earlier), r.stake.cents)
  {
    if IsOffered(b, r.market, r.selection) && r.stake.cents > 0 {
      StruckExactly(LineTaken(b, r, earlier), r.stake.cents);
    }
  }

  /** It is stored as asked, pending, at the line taken, with what the stake earns
      there; and nothing else changes. */
  lemma PlacedRow(b: Book, r: WagerRequest, admitted: bool, earlier: Option<int>)
    requires r.id !in b.wagers && forall id :: id in b.wagers ==> b.wagers[id].user != r.user || b.wagers[id].key != r.key
    requires PlaceWager(b, r, admitted, earlier).Ok?
    ensures IsOffered(b, r.market, r.selection)
    ensures var after := PlaceWager(b, r, admitted, earlier).value;
      && r.id in after.wagers && after == b.(wagers := b.wagers[r.id := after.wagers[r.id]])
      && var w := after.wagers[r.id];
         && w.id == r.id && w.user == r.user && w.market == r.market && w.selection == r.selection
         && w.funding == r.funding && w.stake == r.stake && w.key == r.key && w.state == Pending && w.reason == ""
         && w.odds == (if earlier.Some? then earlier.value else b.markets[r.market].lines[r.selection])
         && w.potentialProfit > 0 && EarnsAt(w.odds, w.stake.cents, w.potentialProfit)
  {
    ProfitByLine(LineTaken(b, r, earlier), r.stake.cents);
  }

  /** A key its member has used stores nothing: it is answered exactly when the
      stored wager has the terms now asked for. */
  lemma UsedKeyStoresNothing(b: Book, r: WagerRequest, admitted: bool, earlier: Option<int>, id: Id)
    requires id in b.wagers && b.wagers[id].user == r.user && b.wagers[id].key == r.key
    requires forall x :: x in b.wagers && b.wagers[x].user == r.user && b.wagers[x].key == r.key ==> x == id
    requires IsOffered(b, r.market, r.selection) && admitted && b.markets[r.market].state == Open
    requires r.stake.cents > 0 && r.stake.currency == b.markets[r.market].currency
    requires CanStrike(LineTaken(b, r, earlier), r.stake.cents)
    ensures var w := b.wagers[id];
      PlaceWager(b, r, admitted, earlier) ==
        if w.market == r.market && w.selection == r.selection && w.stake == r.stake && w.funding == r.funding
           && w.odds == LineTaken(b, r, earlier)
        then Ok(b) else Err(IdempotencyConflict)
  {
    StruckExactly(LineTaken(b, r, earlier), r.stake.cents);
  }

  // ---- What is moved -----------------------------------------------------------------------

  /** `cents` go from one account to another, and no other balance changes. */
  ghost predicate Moved(b: Book, after: Book, from: Account, to: Account, cents: int) {
    forall x :: Balance(after, x) == Balance(b, x) + if x == from then -cents else if x == to then cents else 0
  }

  lemma PostedMoves(b: Book, after: Book, t: Txn, from: Account, to: Account, amount: Money)
    requires from != to && ValidStake(amount) && t.postings == MovePostings(from, to, amount) && after.log == b.log + [t]
    ensures Moved(b, after, from, to, amount.cents)
  {
    MoveIsValid(from, to, amount);
    forall x ensures Balance(after, x) == Balance(b, x) + if x == from then -amount.cents else if x == to then amount.cents else 0 {
      TallyAppend(b.log, t, To(x));
    }
  }

  /** One transaction is added, of this kind and under this key. */
  predicate Posts(b: Book, after: Book, kind: Kind, key: Key, currency: Currency) {
    && |after.log| == |b.log| + 1 && after.log[..|b.log|] == b.log
    && after.log[|b.log|].kind == kind && after.log[|b.log|].key == key && after.log[|b.log|].currency == currency
  }

  predicate OnlyWager(b: Book, after: Book, id: Id) {
    && id in b.wagers && id in after.wagers
    && after == b.(wagers := b.wagers[id := after.wagers[id]], log := after.log)
  }

  // ---- Acceptance -------------------------------------------------------------------------------

  /** On every reachable book a pending wager is accepted exactly when its market
      is not settled, voided or cancelled and the balance it draws on, with the
      credit limit, covers the stake. */
  lemma AcceptCommitsExactly(ops: seq<Op>, id: Id, creditLimit: int)
    requires id in Run(ops).wagers && Run(ops).wagers[id].state == Pending
    ensures var b, w := Run(ops), Run(ops).wagers[id];
      && w.market in b.markets
      && (AcceptWager(b, id, creditLimit, false).Ok? <==>
            && b.markets[w.market].state != Settled && b.markets[w.market].state != Voided
            && b.markets[w.market].state != Cancelled
            && Balance(b, Member(w.user, w.funding, w.stake.currency)) + creditLimit >= w.stake.cents)
  {
    AcceptPosts(ops, id);
    AcceptCommitsIn(Run(ops), id, creditLimit);
  }

  lemma AcceptPosts(ops: seq<Op>, id: Id)
    requires id in Run(ops).wagers && Run(ops).wagers[id].state == Pending
    ensures IsPostable(Run(ops), id)
  {
    RunIsHealthy(ops);
    AcceptPostsIn(Run(ops), SlackOf(ops), id);
  }

  /** What acceptance finds of a row of a reachable book. */
  predicate IsPostable(b: Book, id: Id) {
    && id in b.wagers && b.wagers[id].id == id && b.wagers[id].market in b.markets && ValidStake(b.wagers[id].stake)
    && Post(b, AcceptanceTxn(b.wagers[id])).Ok?
  }

  lemma AcceptPostsIn(b: Book, slack: BookHistory.Slack, id: Id)
    requires Healthy(b, slack) && id in b.wagers && b.wagers[id].state == Pending
    ensures IsPostable(b, id)
  {
    SoundWager(b, id);
    AcceptanceKeepsLedger(b, b.wagers[id]);
  }

  lemma AcceptCommitsIn(b: Book, id: Id, creditLimit: int)
    requires IsPostable(b, id) && b.wagers[id].state == Pending
    ensures var w := b.wagers[id];
      AcceptWager(b, id, creditLimit, false).Ok? <==>
        && b.markets[w.market].state != Settled && b.markets[w.market].state != Voided
        && b.markets[w.market].state != Cancelled
        && Balance(b, Member(w.user, w.funding, w.stake.currency)) + creditLimit >= w.stake.cents
  {
  }

  /** The row is accepted, its stake goes from the account it draws on to escrow,
      and that account is left no lower than the limit allows. */
  ghost predicate TakesStake(b: Book, after: Book, id: Id, creditLimit: int) {
    && OnlyWager(b, after, id)
    && var w := b.wagers[id];
       && after.wagers[id] == w.(state := Accepted)
       && Posts(b, after, AcceptanceKind, WagerAcceptance(id), w.stake.currency)
       && Moved(b, after, Member(w.user, w.funding, w.stake.currency), Escrow(w.stake.currency), w.stake.cents)
       && Balance(after, Member(w.user, w.funding, w.stake.currency)) >= -creditLimit
  }

  /** An acceptance takes the stake. */
  lemma AcceptMoves(ops: seq<Op>, id: Id, creditLimit: int)
    requires id in Run(ops).wagers && Run(ops).wagers[id].state == Pending
    requires AcceptWager(Run(ops), id, creditLimit, false).Ok?
    ensures TakesStake(Run(ops), AcceptWager(Run(ops), id, creditLimit, false).value, id, creditLimit)
  {
    AcceptPosts(ops, id);
    AcceptMovesIn(Run(ops), id, creditLimit);
  }

  lemma AcceptMovesIn(b: Book, id: Id, creditLimit: int)
    requires id in b.wagers && b.wagers[id].state == Pending && b.wagers[id].id == id && ValidStake(b.wagers[id].stake)
    requires AcceptWager(b, id, creditLimit, false).Ok?
    ensures TakesStake(b, AcceptWager(b, id, creditLimit, false).value, id, creditLimit)
  {
    var w, after := b.wagers[id], AcceptWager(b, id, creditLimit, false).value;
    PostedMoves(b, after, AcceptanceTxn(w), Member(w.user, w.funding, w.stake.currency), Escrow(w.stake.currency), w.stake);
  }

  /** Only pending and accepted wagers can be accepted. */
  lemma OthersAreNotAccepted(b: Book, id: Id, creditLimit: int)
    requires id !in b.wagers || b.wagers[id].state in {Rejected, Graded, Refunded}
    ensures AcceptWager(b, id, creditLimit, false).Err?
  {
  }

  // ---- Rejection -------------------------------------------------------------------------------

  /** A rejection stores the reason on a pending wager, and is repeated only for
      the same reason; a member's withdrawal is a rejection of their own wager. */
  lemma RejectAnswers(b: Book, id: Id, reason: string, user: Id)
    ensures RejectWager(b, id, reason).Ok? <==>
      id in b.wagers && ((b.wagers[id].state == Pending && reason != "") || (b.wagers[id].state == Rejected && b.wagers[id].reason == reason))
    ensures RejectWager(b, id, reason).Ok? && b.wagers[id].id == id ==>
      RejectWager(b, id, reason).value == b.(wagers := b.wagers[id := b.wagers[id].(state := Rejected, reason := reason)])
    ensures CancelWager(b, id, user).Ok? ==>
      id in b.wagers && b.wagers[id].user == user && CancelWager(b, id, user) == RejectWager(b, id, CANCEL_REASON)
  {
    if RejectWager(b, id, reason).Ok? && b.wagers[id].state == Rejected {
      assert b.wagers[id := b.wagers[id].(state := Rejected, reason := reason)] == b.wagers;
    }
  }

  // ---- Reduction and void -----------------------------------------------------------------------

  /** On every reachable book an accepted wager is reduced exactly on a market not
      settled, voided or cancelled and to a smaller positive stake, unless that
      reduction is on the ledger already. */
  lemma ReduceCommitsExactly(ops: seq<Op>, id: Id, newStake: int)
    requires id in Run(ops).wagers && Run(ops).wagers[id].state == Accepted
    ensures var b, w := Run(ops), Run(ops).wagers[id];
      && w.market in b.markets
      && (ReduceWager(b, id, newStake).Ok? <==>
            && b.markets[w.market].state != Settled && b.markets[w.market].state != Voided
            && b.markets[w.market].state != Cancelled
            && (0 < newStake < w.stake.cents || HasKey(b.log, WagerReduction(id, newStake))))
  {
    ReducePosts(ops, id, newStake);
    ReduceCommitsIn(Run(ops), id, newStake);
  }

  lemma ReducePosts(ops: seq<Op>, id: Id, newStake: int)
    requires id in Run(ops).wagers && Run(ops).wagers[id].state == Accepted
    ensures IsReducible(Run(ops), id, newStake)
  {
    RunIsHealthy(ops);
    ReducePostsIn(Run(ops), SlackOf(ops), id, newStake);
  }

  /** What a reduction finds of an accepted row of a reachable book. */
  predicate IsReducible(b: Book, id: Id, newStake: int) {
    && id in b.wagers && b.wagers[id].id == id && b.wagers[id].market in b.markets && ValidStake(b.wagers[id].stake)
    && (0 < newStake < b.wagers[id].stake.cents && !HasKey(b.log, WagerReduction(id, newStake)) ==>
          Profit(b.wagers[id].odds, newStake).Ok? && Post(b, ReductionTxn(b.wagers[id], newStake)).Ok?)
  }

  lemma ReducePostsIn(b: Book, slack: BookHistory.Slack, id: Id, newStake: int)
    requires Healthy(b, slack) && id in b.wagers && b.wagers[id].state == Accepted
    ensures IsReducible(b, id, newStake)
  {
    SoundWager(b, id);
    var w := b.wagers[id];
    if 0 < newStake < w.stake.cents && !HasKey(b.log, WagerReduction(id, newStake)) {
      ReductionKeepsLedger(b, w, newStake, 0);
      ProfitMonotone(w.odds, newStake, w.stake.cents);
    }
  }

  lemma ReduceCommitsIn(b: Book, id: Id, newStake: int)
    requires IsReducible(b, id, newStake) && b.wagers[id].state == Accepted
    ensures var w := b.wagers[id];
      ReduceWager(b, id, newStake).Ok? <==>
        && b.markets[w.market].state != Settled && b.markets[w.market].state != Voided
        && b.markets[w.market].state != Cancelled
        && (0 < newStake < w.stake.cents || HasKey(b.log, WagerReduction(id, newStake)))
  {
  }

  /** The row keeps its odds, its profit is what the new stake earns at them, and
      the difference goes from escrow back to the member. */
  ghost predicate ReturnsDifference(b: Book, after: Book, id: Id, newStake: int) {
    && OnlyWager(b, after, id)
    && var w, next := b.wagers[id], after.wagers[id];
       && next == w.(stake := Money(newStake, w.stake.currency), potentialProfit := next.potentialProfit)
       && EarnsAt(w.odds, newStake, next.potentialProfit)
       && Posts(b, after, RefundKind, WagerReduction(id, newStake), w.stake.currency)
       && Moved(b, after, Escrow(w.stake.currency), Member(w.user, w.funding, w.stake.currency), w.stake.cents - newStake)
  }

  /** A new reduction returns the difference. */
  lemma ReduceMoves(ops: seq<Op>, id: Id, newStake: int)
    requires id in Run(ops).wagers && Run(ops).wagers[id].state == Accepted
    requires !HasKey(Run(ops).log, WagerReduction(id, newStake)) && ReduceWager(Run(ops), id, newStake).Ok?
    ensures ReturnsDifference(Run(ops), ReduceWager(Run(ops), id, newStake).value, id, newStake)
  {
    ReducePosts(ops, id, newStake);
    ReduceMovesIn(Run(ops), id, newStake);
  }

  lemma ReduceMovesIn(b: Book, id: Id, newStake: int)
    requires id in b.wagers && b.wagers[id].state == Accepted && b.wagers[id].id == id && ValidStake(b.wagers[id].stake)
    requires !HasKey(b.log, WagerReduction(id, newStake)) && ReduceWager(b, id, newStake).Ok?
    ensures ReturnsDifference(b, ReduceWager(b, id, newStake).value, id, newStake)
  {
    var w, after := b.wagers[id], ReduceWager(b, id, newStake).value;
    ProfitByLine(w.odds, newStake);
    PostedMoves(b, after, ReductionTxn(w, newStake), Escrow(w.stake.currency), Member(w.user, w.funding, w.stake.currency),
                Money(w.stake.cents - newStake, w.stake.currency));
  }

  /** The row is refunded and its whole stake goes from escrow to the member. */
  ghost predicate ReturnsStake(b: Book, after: Book, id: Id) {
    && OnlyWager(b, after, id)
    && var w := b.wagers[id];
       && after.wagers[id] == w.(state := Refunded)
       && Posts(b, after, RefundKind, WagerVoid(id), w.stake.currency)
       && Moved(b, after, Escrow(w.stake.currency), Member(w.user, w.funding, w.stake.currency), w.stake.cents)
  }

  /** On every reachable book a void of an accepted wager commits and returns the
      whole stake from escrow; any other wager is refused unless it was voided so. */
  lemma VoidAnswers(ops: seq<Op>, id: Id)
    requires id in Run(ops).wagers
    ensures var b, w := Run(ops), Run(ops).wagers[id];
      (VoidWager(b, id).Ok? <==> w.state == Accepted || (w.state == Refunded && HasKey(b.log, WagerVoid(id))))
    ensures Run(ops).wagers[id].state == Accepted && VoidWager(Run(ops), id).Ok? ==>
      ReturnsStake(Run(ops), VoidWager(Run(ops), id).value, id)
  {
    if Run(ops).wagers[id].state == Accepted {
      VoidCommits(ops, id);
      VoidMoves(Run(ops), id);
    }
  }

  lemma VoidCommits(ops: seq<Op>, id: Id)
    requires id in Run(ops).wagers && Run(ops).wagers[id].state == Accepted
    ensures Run(ops).wagers[id].id == id && ValidStake(Run(ops).wagers[id].stake) && VoidWager(Run(ops), id).Ok?
  {
    RunIsHealthy(ops);
    HeldStake(Run(ops), SlackOf(ops), id);
    VoidSucceeds(Run(ops), id);
  }

  lemma VoidMoves(b: Book, id: Id)
    requires id in b.wagers && b.wagers[id].state == Accepted && b.wagers[id].id == id && ValidStake(b.wagers[id].stake)
    requires VoidWager(b, id).Ok?
    ensures ReturnsStake(b, VoidWager(b, id).value, id)
  {
    var w := b.wagers[id];
    PostedMoves(b, VoidWager(b, id).value, VoidTxn(w), Escrow(w.stake.currency), Member(w.user, w.funding, w.stake.currency), w.stake);
  }
}
