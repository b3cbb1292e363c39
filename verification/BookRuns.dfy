/** What holds after every run of store operations. */
module BookRuns {
  import opened Results
  import opened Ledger
  import opened Wagers
  import opened Parlays
  import opened Totals
  import opened BookState
  import opened BookInvariant
  import opened BookSafety
  import opened BookChanges
  import opened BookHistory
  import opened BookPayments

  // ---- The invariant over runs ---------------------------------------------------------

  ghost predicate Healthy(b: Book, slack: Slack) {
    Sound(b) && RecordsSound(b) && LiveSound(b, slack) && PaymentsSound(b) && PricesSound(b)
  }

  lemma PaymentsMatchKinds(b: Book)
    requires PaymentsSound(b)
    ensures KindsMatch(b.log)
  {
    forall i | 0 <= i < |b.log| ensures KindMatches(b.log[i]) {
      assert Paid(b, b.log[i]);
    }
  }

  lemma EmptyIsHealthy(slack: Slack)
    ensures Healthy(EmptyBook, slack)
  {
    forall c ensures EscrowMatches(EmptyBook, c) {
      TotalZero(HeldWagers(EmptyBook, c));
      TotalZero(HeldParlays(EmptyBook, c));
    }
  }

  lemma SoundShapes(b: Book)
    requires Sound(b)
    ensures ShapesSound(b)
  {
  }

  lemma ChangeKeepsHistory(b: Book, how: Check, slack: Slack, after: Book)
    requires RecordsSound(b) && LiveSound(b, slack) && PaymentsSound(b) && PricesSound(b) && ShapesSound(b)
    requires Change(b, how, after)
    ensures RecordsSound(after) && LiveSound(after, Later(slack, how, b, after)) && PaymentsSound(after) && PricesSound(after)
  {
    ChangeKeepsRecords(b, how, after);
    ChangeKeepsLive(b, how, slack, after);
    ChangeKeepsPayments(b, how, after);
    ChangeKeepsPrices(b, how, after);
  }

  lemma StepKeepsHealthy(b: Book, op: Op, slack: Slack)
    requires Healthy(b, slack)
    ensures Healthy(Step(b, op), Later(slack, CheckOf(op), b, Step(b, op))) && Grows(b, Step(b, op))
  {
    SoundShapes(b);
    PaymentsMatchKinds(b);
    StepIsAChange(b, op);
    ChangeKeepsHistory(b, CheckOf(op), slack, Step(b, op));
    ChangeGrows(b, CheckOf(op), Step(b, op));
  }

  /** What a run did beside the checks. */
  ghost function SlackOf(ops: seq<Op>): Slack {
    if ops == [] then Slack(false, {}, {})
    else
      var init, op := ops[..|ops| - 1], ops[|ops| - 1];
      Later(SlackOf(init), CheckOf(op), Run(init), Run(ops))
  }

  /** Every reachable book is healthy, whatever was done beside the checks. */
  lemma {:induction false} RunIsHealthy(ops: seq<Op>)
    ensures Healthy(Run(ops), SlackOf(ops))
  {
    if ops == [] {
      EmptyIsHealthy(SlackOf(ops));
    } else {
      var init := ops[..|ops| - 1];
      RunIsHealthy(init);
      StepKeepsHealthy(Run(init), ops[|ops| - 1], SlackOf(init));
    }
  }

  predicate IsChecked(ops: seq<Op>) {
    forall i :: 0 <= i < |ops| ==> !ops[i].OpAcceptUnchecked?
  }

  lemma {:induction false} CheckedSlack(ops: seq<Op>)
    requires IsChecked(ops)
    ensures !SlackOf(ops).unchecked
  {
    if ops != [] {
      CheckedSlack(ops[..|ops| - 1]);
    }
  }

  // ---- Escrow ----------------------------------------------------------------------------

  /** In every currency, escrow holds the stakes of the accepted wagers and
      parlays, and nothing else. */
  lemma EscrowHoldsLiveStakes(ops: seq<Op>, currency: Currency)
    ensures var b := Run(ops);
      Balance(b, Escrow(currency)) == Total(HeldWagers(b, currency)) + Total(HeldParlays(b, currency))
  {
    RunIsHealthy(ops);
    assert EscrowMatches(Run(ops), currency);
  }

  // ---- All accounts together ----------------------------------------------------------------

  function BalanceIn(log: seq<Txn>): Account -> int {
    (a: Account) => Tally(log, To(a))
  }

  function NetIn(postings: seq<Posting>): Account -> int {
    (a: Account) => NetTo(postings, a)
  }

  function Single(posting: Posting): Account -> int {
    (a: Account) => PostedTo(posting, a)
  }

  /** What `accounts` hold together. */
  ghost function Together(log: seq<Txn>, accounts: set<Account>): int {
    SumOver(accounts, BalanceIn(log))
  }

  lemma TogetherAppend(log: seq<Txn>, t: Txn, accounts: set<Account>)
    ensures Together(log + [t], accounts) == Together(log, accounts) + SumOver(accounts, NetIn(t.postings))
  {
    forall a | a in accounts ensures BalanceIn(log + [t])(a) == BalanceIn(log)(a) + NetIn(t.postings)(a) {
      TallyAppend(log, t, To(a));
    }
    SumAdds(accounts, BalanceIn(log), NetIn(t.postings), BalanceIn(log + [t]));
  }

  /** What a transaction moves into accounts of one currency: all of its net if
      it is in that currency, nothing otherwise. */
  lemma {:induction false} NetOverAccounts(postings: seq<Posting>, accounts: set<Account>)
    ensures (forall i :: 0 <= i < |postings| ==> postings[i].account in accounts) ==>
      SumOver(accounts, NetIn(postings)) == Net(postings)
    ensures (forall i :: 0 <= i < |postings| ==> postings[i].account !in accounts) ==>
      SumOver(accounts, NetIn(postings)) == 0
  {
    if postings == [] {
      SumZero(accounts, NetIn(postings));
    } else {
      var init, last := postings[..|postings| - 1], postings[|postings| - 1];
      NetOverAccounts(init, accounts);
      SumSingle(accounts, Single(last), last.account);
      SumAdds(accounts, NetIn(init), Single(last), NetIn(postings));
    }
  }

  /** `accounts` are all the accounts of `currency` that the ledger posts to. */
  ghost predicate AreAll(log: seq<Txn>, accounts: set<Account>, currency: Currency) {
    && (forall a :: a in accounts ==> a.currency == currency)
    && forall i :: 0 <= i < |log| ==> CoversPostings(log[i].postings, accounts, currency)
  }

  predicate CoversPostings(postings: seq<Posting>, accounts: set<Account>, currency: Currency) {
    forall k :: 0 <= k < |postings| && postings[k].account.currency == currency ==> postings[k].account in accounts
  }

  lemma {:induction false} BalancedLog(log: seq<Txn>, accounts: set<Account>, currency: Currency)
    requires AreAll(log, accounts, currency)
    requires forall i :: 0 <= i < |log| ==> GoodTxn(log[i])
    ensures Together(log, accounts) == 0
  {
    if log == [] {
      SumZero(accounts, BalanceIn(log));
    } else {
      var init, t := log[..|log| - 1], log[|log| - 1];
      assert CoversPostings(t.postings, accounts, currency) && GoodTxn(t);
      NetOverAccounts(t.postings, accounts);
      assert SumOver(accounts, NetIn(t.postings)) == 0 by {
        if t.currency == currency {
          assert forall i :: 0 <= i < |t.postings| ==> t.postings[i].account in accounts;
        } else {
          assert forall i :: 0 <= i < |t.postings| ==> t.postings[i].account !in accounts;
        }
      }
      BalancedLog(init, accounts, currency);
      TogetherAppend(init, t, accounts);
      assert log == init + [t];
    }
  }

  /** In every currency, all accounts together sum to zero. */
  lemma AccountsSumToZero(ops: seq<Op>, accounts: set<Account>, currency: Currency)
    requires AreAll(Run(ops).log, accounts, currency)
    ensures Together(Run(ops).log, accounts) == 0
  {
    RunIsHealthy(ops);
    BalancedLog(Run(ops).log, accounts, currency);
  }

  // ---- Every cent in escrow has a way out -----------------------------------------------------

  /** With the market check, every accepted wager's market is undecided, except
      that a wager inserted late on a market closed without action is held there. */
  lemma AcceptedWagersAreUndecided(ops: seq<Op>, id: Id)
    requires IsChecked(ops)
    requires id in Run(ops).wagers && Run(ops).wagers[id].state == Accepted
    ensures var b := Run(ops);
      var market := b.wagers[id].market;
      market in b.markets
      && if b.markets[market].state == NoAction then id in SlackOf(ops).late else !IsDecided(b.markets[market].state)
  {
    RunIsHealthy(ops);
    CheckedSlack(ops);
    SoundWager(Run(ops), id);
    assert WagerLive(Run(ops).markets, Run(ops).wagers[id], SlackOf(ops));
  }

  /** Every accepted parlay has lost nothing, still has an open leg, and waits
      only on undecided markets unless its acceptance came behind a decision. */
  lemma AcceptedParlaysWait(ops: seq<Op>, id: Id)
    requires id in Run(ops).parlays && Run(ops).parlays[id].state == Accepted
    ensures var b, p := Run(ops), Run(ops).parlays[id];
      && !HasLoss(p.legs) && HasOpenLeg(p.legs)
      && (id in SlackOf(ops).behind || OpenLegsUndecided(b.markets, p.legs))
  {
    RunIsHealthy(ops);
    SoundParlayId(Run(ops), id);
    assert ParlayLive(Run(ops).markets, Run(ops).parlays[id], SlackOf(ops));
  }

  lemma SoundParlayId(b: Book, id: Id)
    requires Sound(b) && id in b.parlays
    ensures b.parlays[id].id == id
  {
  }

  predicate ParlaysOnTime(ops: seq<Op>) {
    forall i :: 0 <= i < |ops| ==> !ops[i].OpAcceptParlayLate?
  }

  lemma VoidSucceeds(b: Book, id: Id)
    requires LedgerSound(b) && id in b.wagers && b.wagers[id].state == Accepted && ValidStake(b.wagers[id].stake)
    ensures VoidWager(b, id) == Ok(Put(b.(log := b.log + [VoidTxn(b.wagers[id])]), b.wagers[id].(state := Refunded)))
    ensures b.wagers[id].id == id
  {
    VoidKeepsLedger(b, b.wagers[id]);
  }

  lemma VoidPaysBack(log: seq<Txn>, w: Wager)
    requires ValidStake(w.stake)
    ensures Tally(log + [VoidTxn(w)], To(FundingAccount(w))) == Tally(log, To(FundingAccount(w))) + w.stake.cents
  {
    MoveIsGood(Escrow(w.stake.currency), FundingAccount(w), w.stake);
    TallyAppend(log, VoidTxn(w), To(FundingAccount(w)));
  }

  ghost predicate IsVoided(b: Book, id: Id, after: Book)
    requires id in b.wagers
  {
    var w := b.wagers[id];
    && after.wagers == b.wagers[id := w.(state := Refunded)]
    && Balance(after, FundingAccount(w)) == Balance(b, FundingAccount(w)) + w.stake.cents
  }

  lemma VoidStep(b: Book, id: Id)
    requires LedgerSound(b) && id in b.wagers && b.wagers[id].state == Accepted && ValidStake(b.wagers[id].stake)
    ensures IsVoided(b, id, Step(b, OpVoid(id)))
  {
    VoidSucceeds(b, id);
    IsVoidedOnce(b, id);
  }

  lemma IsVoidedOnce(b: Book, id: Id)
    requires id in b.wagers && b.wagers[id].id == id && ValidStake(b.wagers[id].stake)
    ensures IsVoided(b, id, Put(b.(log := b.log + [VoidTxn(b.wagers[id])]), b.wagers[id].(state := Refunded)))
  {
    VoidPaysBack(b.log, b.wagers[id]);
  }

  /** A held wager can always be voided, whatever happened before. */
  lemma AcceptedWagersCanBeVoided(ops: seq<Op>, id: Id)
    requires id in Run(ops).wagers && Run(ops).wagers[id].state == Accepted
    ensures IsVoided(Run(ops), id, Step(Run(ops), OpVoid(id)))
  {
    RunIsHealthy(ops);
    HeldStake(Run(ops), SlackOf(ops), id);
    VoidStep(Run(ops), id);
  }

  lemma HeldStake(b: Book, slack: Slack, id: Id)
    requires Healthy(b, slack) && id in b.wagers
    ensures LedgerSound(b) && ValidStake(b.wagers[id].stake)
  {
    SoundWager(b, id);
  }

  // ---- History ------------------------------------------------------------------------------------

  lemma {:induction false} GrowsItself(b: Book)
    ensures Grows(b, b)
  {
  }

  /** From any point of a run to any later one, the ledger and the settlement
      versions are only added to, and final rows do not change. */
  lemma {:induction false} HistoryOnlyGrows(ops: seq<Op>, n: nat)
    requires n <= |ops|
    ensures Grows(Run(ops[..n]), Run(ops))
    decreases |ops|
  {
    if n == |ops| {
      assert ops[..n] == ops;
      GrowsItself(Run(ops));
    } else {
      var init := ops[..|ops| - 1];
      assert init[..n] == ops[..n];
      HistoryOnlyGrows(init, n);
      RunIsHealthy(init);
      StepKeepsHealthy(Run(init), ops[|ops| - 1], SlackOf(init));
      GrowsTwice(Run(ops[..n]), Run(init), Run(ops));
    }
  }

  // ---- One wager's money -----------------------------------------------------------------------------

  /** At all times the amount accepted is the stake plus every reduction since;
      a terminal wager has exactly one release, of the stake it ended with; any
      other has none; and its potential profit is its odds' profit on its stake. */
  lemma WagerIsConserved(ops: seq<Op>, id: Id)
    requires id in Run(ops).wagers
    ensures var b, w := Run(ops), Run(ops).wagers[id];
      && Profit(w.odds, w.stake.cents) == Ok(w.potentialProfit)
      && (w.state == Accepted || IsTerminal(w.state) ==>
           Tally(b.log, AcceptedCents(id)) == w.stake.cents + Tally(b.log, ReducedCents(id)))
      && Tally(b.log, Releases(id)) == (if IsTerminal(w.state) then 1 else 0)
      && Tally(b.log, ReleasedCents(id)) == (if IsTerminal(w.state) then w.stake.cents else 0)
  {
    RunIsHealthy(ops);
    WagerRowIsSound(Run(ops), SlackOf(ops), id);
    RowIsConserved(Run(ops).log, Run(ops).wagers[id]);
  }

  lemma RowIsConserved(log: seq<Txn>, w: Wager)
    requires WagerBooks(log, w) && ValidWager(w)
    ensures Profit(w.odds, w.stake.cents) == Ok(w.potentialProfit)
    ensures w.state == Accepted || IsTerminal(w.state) ==>
      Tally(log, AcceptedCents(w.id)) == w.stake.cents + Tally(log, ReducedCents(w.id))
    ensures Tally(log, Releases(w.id)) == if IsTerminal(w.state) then 1 else 0
    ensures Tally(log, ReleasedCents(w.id)) == if IsTerminal(w.state) then w.stake.cents else 0
  {
  }

  lemma WagerRowIsSound(b: Book, slack: Slack, id: Id)
    requires Healthy(b, slack) && id in b.wagers
    ensures b.wagers[id].id == id && WagerBooks(b.log, b.wagers[id]) && ValidWager(b.wagers[id])
  {
    SoundWager(b, id);
  }

  lemma SoundWager(b: Book, id: Id)
    requires Sound(b) && id in b.wagers
    ensures b.wagers[id].id == id && WagerBooks(b.log, b.wagers[id]) && WagerShape(b.markets, b.wagers[id])
  {
  }

  /** verifyAcceptance never fails on an accepted wager: accepting again is a no-op. */
  lemma AcceptReplays(ops: seq<Op>, id: Id, creditLimit: int)
    requires id in Run(ops).wagers && Run(ops).wagers[id].state == Accepted
    ensures AcceptWager(Run(ops), id, creditLimit, false) == Ok(Run(ops))
  {
    RunIsHealthy(ops);
    SoundWager(Run(ops), id);
  }

  lemma AppliedReduction(b: Book, id: Id, newStake: int)
    requires HasKey(b.log, WagerReduction(id, newStake))
    ensures Step(b, OpReduce(id, newStake)) == b
  {
  }

  /** Replaying a reduction that is on the ledger changes nothing, then or later. */
  lemma ReduceReplays(ops: seq<Op>, more: seq<Op>, id: Id, newStake: int)
    requires Step(Run(ops), OpReduce(id, newStake)) != Run(ops)
    ensures var later := Run(ops + [OpReduce(id, newStake)] + more);
      Step(later, OpReduce(id, newStake)) == later
  {
    var first, all := ops + [OpReduce(id, newStake)], ops + [OpReduce(id, newStake)] + more;
    assert first[..|ops|] == ops && all[..|first|] == first;
    HistoryOnlyGrows(all, |first|);
    var b, done, later := Run(ops), Run(first), Run(all);
    assert done == Step(b, OpReduce(id, newStake));
    assert done.log == b.log + [ReductionTxn(b.wagers[id], newStake)];
    RunIsHealthy(ops);
    SoundWager(b, id);
    assert later.log[|b.log|] == ReductionTxn(b.wagers[id], newStake);
    AppliedReduction(later, id, newStake);
  }

  /** Replaying a void that is on the ledger changes nothing. */
  lemma VoidReplays(ops: seq<Op>, id: Id)
    requires HasKey(Run(ops).log, WagerVoid(id))
    ensures VoidWager(Run(ops), id) == Ok(Run(ops))
  {
    RunIsHealthy(ops);
    var b := Run(ops);
    var i :| 0 <= i < |b.log| && b.log[i].key == WagerVoid(id);
    assert Paid(b, b.log[i]);
  }
}
