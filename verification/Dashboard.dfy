/** The dashboard's sums (internal/privatepg/bookpulse.go) and what settle-ups
    do to them. */
module Dashboard {
  import opened Results
  import opened Ledger
  import opened Wagers
  import opened Totals
  import opened BookState
  import opened BookInvariant
  import opened BookSafety
  import opened BookSettlement
  import opened BookChanges
  import opened BookHistory
  import opened BookPayments
  import opened BookRuns

  // ---- The sums ----------------------------------------------------------------------

  function ToUser(postings: seq<Posting>, user: Id): int {
    if postings == [] then 0
    else
      var last := postings[|postings| - 1];
      ToUser(postings[..|postings| - 1], user) + OwnedBy(last, user)
  }

  function OwnedBy(posting: Posting, user: Id): int {
    if posting.account.Member? && posting.account.user == user then posting.amount.cents else 0
  }

  function BettingTo(user: Id): Txn -> int {
    (t: Txn) => if IsBetting(t.kind) then ToUser(t.postings, user) else 0
  }

  function BettingToHouse(currency: Currency): Txn -> int {
    (t: Txn) => if IsBetting(t.kind) then NetTo(t.postings, House(currency)) else 0
  }

  /** playerResultsSQL: a member's realised betting result. */
  function PlayerNet(log: seq<Txn>): Id -> int {
    (user: Id) => Tally(log, BettingTo(user))
  }

  /** bookTotalsSQL: the house's result over wager transactions only. */
  function HouseResult(log: seq<Txn>, currency: Currency): int {
    Tally(log, BettingToHouse(currency))
  }

  function EscrowHeld(log: seq<Txn>, currency: Currency): int {
    Tally(log, To(Escrow(currency)))
  }

  ghost function PlayersTotal(log: seq<Txn>, users: set<Id>): int {
    SumOver(users, PlayerNet(log))
  }

  /** Every posting is in `currency`, and every member posted to is in `users`. */
  predicate SingleCurrency(log: seq<Txn>, currency: Currency, users: set<Id>) {
    forall i :: 0 <= i < |log| ==> log[i].currency == currency && OwnersIn(log[i].postings, users)
  }

  predicate OwnersIn(postings: seq<Posting>, users: set<Id>) {
    forall k :: 0 <= k < |postings| && postings[k].account.Member? ==> postings[k].account.user in users
  }

  // ---- The identity --------------------------------------------------------------------

  function ToUserIn(postings: seq<Posting>): Id -> int {
    (user: Id) => ToUser(postings, user)
  }

  function OwnedIn(posting: Posting): Id -> int {
    (user: Id) => OwnedBy(posting, user)
  }

  lemma OwnedOnce(posting: Posting, users: set<Id>)
    requires posting.account.Member? ==> posting.account.user in users
    ensures SumOver(users, OwnedIn(posting)) == if posting.account.Member? then posting.amount.cents else 0
  {
    if posting.account.Member? {
      SumSingle(users, OwnedIn(posting), posting.account.user);
    } else {
      SumZero(users, OwnedIn(posting));
    }
  }

  /** A transaction's postings are to members, the house or escrow. */
  lemma {:induction false} PostingsSplit(postings: seq<Posting>, currency: Currency, users: set<Id>)
    requires InCurrency(currency, postings) && OwnersIn(postings, users)
    ensures SumOver(users, ToUserIn(postings)) + NetTo(postings, House(currency)) + NetTo(postings, Escrow(currency))
         == Net(postings)
  {
    if postings == [] {
      SumZero(users, ToUserIn(postings));
    } else {
      var init, last := postings[..|postings| - 1], postings[|postings| - 1];
      PostingsSplit(init, currency, users);
      OwnedOnce(last, users);
      SumAdds(users, ToUserIn(init), OwnedIn(last), ToUserIn(postings));
    }
  }

  function BettingUsers(t: Txn): Id -> int {
    (user: Id) => BettingTo(user)(t)
  }

  lemma PlayersAppend(log: seq<Txn>, t: Txn, users: set<Id>)
    ensures PlayersTotal(log + [t], users) == PlayersTotal(log, users) + SumOver(users, BettingUsers(t))
  {
    forall user | user in users ensures PlayerNet(log + [t])(user) == PlayerNet(log)(user) + BettingUsers(t)(user) {
      TallyAppend(log, t, BettingTo(user));
    }
    SumAdds(users, PlayerNet(log), BettingUsers(t), PlayerNet(log + [t]));
  }

  lemma BettingUsersOf(t: Txn, users: set<Id>)
    ensures SumOver(users, BettingUsers(t)) == if IsBetting(t.kind) then SumOver(users, ToUserIn(t.postings)) else 0
  {
    if IsBetting(t.kind) {
      SumZero(users, Nothing());
      forall user | user in users ensures BettingUsers(t)(user) == ToUserIn(t.postings)(user) + Nothing()(user) {
        assert BettingTo(user)(t) == ToUser(t.postings, user);
      }
      SumAdds(users, ToUserIn(t.postings), Nothing(), BettingUsers(t));
    } else {
      forall user | user in users ensures BettingUsers(t)(user) == 0 {
        assert BettingTo(user)(t) == 0;
      }
      SumZero(users, BettingUsers(t));
    }
  }

  function Nothing(): Id -> int {
    (user: Id) => 0
  }

  lemma {:induction false} LogSplits(log: seq<Txn>, currency: Currency, users: set<Id>)
    requires SingleCurrency(log, currency, users) && forall i :: 0 <= i < |log| ==> GoodTxn(log[i])
    ensures PlayersTotal(log, users) + HouseResult(log, currency) + EscrowHeld(log, currency) == 0
  {
    if log == [] {
      SumZero(users, PlayerNet(log));
    } else {
      var init, t := log[..|log| - 1], log[|log| - 1];
      LogSplits(init, currency, users);
      assert log == init + [t] && GoodTxn(t);
      PlayersAppend(init, t, users);
      BettingUsersOf(t, users);
      if IsBetting(t.kind) {
        PostingsSplit(t.postings, currency, users);
      } else {
        ElsewhereNothing(t.postings, Escrow(currency));
      }
    }
  }

  /** In a single-currency book, in every reachable state, the members' betting
      results, the house's result and escrow sum to zero. */
  lemma DashboardIdentity(ops: seq<Op>, currency: Currency, users: set<Id>)
    requires SingleCurrency(Run(ops).log, currency, users)
    ensures PlayersTotal(Run(ops).log, users) + HouseResult(Run(ops).log, currency) + EscrowHeld(Run(ops).log, currency) == 0
  {
    RunIsHealthy(ops);
    LogSplits(Run(ops).log, currency, users);
  }

  // ---- Settle-ups leave it alone ---------------------------------------------------------

  lemma CashIsNoBetting(log: seq<Txn>, t: Txn, currency: Currency, user: Id)
    requires !IsBetting(t.kind) && AvoidsEscrow(t.postings)
    ensures PlayerNet(log + [t])(user) == PlayerNet(log)(user)
    ensures HouseResult(log + [t], currency) == HouseResult(log, currency)
    ensures EscrowHeld(log + [t], currency) == EscrowHeld(log, currency)
  {
    TallyAppend(log, t, BettingTo(user));
    TallyAppend(log, t, BettingToHouse(currency));
    TallyAppend(log, t, To(Escrow(currency)));
    ElsewhereNothing(t.postings, Escrow(currency));
  }

  /** Recording or reversing a settle-up changes no member's betting result, nor
      the house's, nor escrow. */
  lemma SettleUpsAreNoResult(ops: seq<Op>, op: Op, currency: Currency, user: Id)
    requires op.OpSettleUp? || op.OpReverse?
    ensures var before, after := Run(ops).log, Step(Run(ops), op).log;
      && PlayerNet(after)(user) == PlayerNet(before)(user)
      && HouseResult(after, currency) == HouseResult(before, currency)
      && EscrowHeld(after, currency) == EscrowHeld(before, currency)
  {
    RunIsHealthy(ops);
    NoResultIn(Run(ops), SlackOf(ops), op, currency, user);
  }

  lemma NoResultIn(b: Book, slack: Slack, op: Op, currency: Currency, user: Id)
    requires Healthy(b, slack) && (op.OpSettleUp? || op.OpReverse?)
    ensures var before, after := b.log, Step(b, op).log;
      && PlayerNet(after)(user) == PlayerNet(before)(user)
      && HouseResult(after, currency) == HouseResult(before, currency)
      && EscrowHeld(after, currency) == EscrowHeld(before, currency)
  {
    var after := Step(b, op);
    if after != b {
      CashOps(b, op);
      StepKeepsHealthy(b, op, slack);
      var t := after.log[|b.log|];
      LastIsGood(after.log);
      CashIsNoBetting(b.log, t, currency, user);
    }
  }

  lemma LastIsGood(log: seq<Txn>)
    requires WellPosted(log) && log != []
    ensures GoodTxn(log[|log| - 1])
  {
  }

  // ---- Recording and reversing ---------------------------------------------------------------

  function Signed(direction: Direction, amount: Money): int {
    if direction == PaymentReceived then amount.cents else -amount.cents
  }

  /** Only the member's cash account and the house's move, by opposite amounts. */
  ghost predicate Shifts(before: Book, after: Book, user: Id, currency: Currency, cents: int) {
    forall x :: Balance(after, x) == Balance(before, x) + ShiftOf(user, currency, cents, x)
  }

  function ShiftOf(user: Id, currency: Currency, cents: int, x: Account): int {
    if x == Member(user, Cash, currency) then cents else if x == House(currency) then -cents else 0
  }

  ghost predicate NetsTo(postings: seq<Posting>, user: Id, currency: Currency, cents: int) {
    forall x :: NetTo(postings, x) == ShiftOf(user, currency, cents, x)
  }

  lemma PostedShifts(b: Book, t: Txn, user: Id, currency: Currency, cents: int)
    requires NetsTo(t.postings, user, currency, cents)
    ensures Shifts(b, b.(log := b.log + [t]), user, currency, cents)
  {
    forall x ensures Balance(b.(log := b.log + [t]), x) == Balance(b, x) + ShiftOf(user, currency, cents, x) {
      TallyAppend(b.log, t, To(x));
    }
  }

  /** A new settle-up moves its amount between the member and the house. */
  lemma RecordingShifts(b: Book, id: Id, user: Id, direction: Direction, amount: Money)
    requires !HasKey(b.log, Adjustment(id)) && ValidStake(amount)
    ensures RecordSettlement(b, id, user, direction, amount)
         == Ok(b.(log := b.log + [AdjustmentTxn(id, user, direction, amount)]))
    ensures Shifts(b, RecordSettlement(b, id, user, direction, amount).value, user, amount.currency, Signed(direction, amount))
  {
    var t := AdjustmentTxn(id, user, direction, amount);
    AdjustmentIsGood(id, user, direction, amount);
    PostedShifts(b, t, user, amount.currency, Signed(direction, amount));
  }

  lemma NegatedPair(a: Posting, b: Posting)
    ensures Negated([a, b]) == [Posting(a.account, Money(-a.amount.cents, a.amount.currency)),
                                Posting(b.account, Money(-b.amount.cents, b.amount.currency))]
  {
    assert [a, b][..1] == [a] && [a][..0] == [];
  }

  lemma InversePairIsValid(currency: Currency, a: Posting, b: Posting)
    requires a.account != b.account && a.amount.currency == currency && b.amount.currency == currency
    requires 0 < a.amount.cents <= MAX_INT64 || 0 < b.amount.cents <= MAX_INT64
    requires a.amount.cents + b.amount.cents == 0
    ensures ValidPostings(currency, Negated([a, b]))
  {
    NegatedPair(a, b);
    TwoPostingsValid(currency, Negated([a, b])[0], Negated([a, b])[1]);
  }

  lemma InverseNets(postings: seq<Posting>, user: Id, currency: Currency, cents: int)
    requires NetsTo(postings, user, currency, cents)
    ensures NetsTo(Negated(postings), user, currency, -cents)
  {
    forall x ensures NetTo(Negated(postings), x) == ShiftOf(user, currency, -cents, x) {
      NegatedNets(postings, x);
    }
  }

  lemma InverseIsValid(id: Id, user: Id, direction: Direction, amount: Money)
    requires ValidStake(amount)
    ensures ValidPostings(amount.currency, Negated(AdjustmentTxn(id, user, direction, amount).postings))
    ensures NetsTo(Negated(AdjustmentTxn(id, user, direction, amount).postings), user, amount.currency, -Signed(direction, amount))
  {
    var postings := AdjustmentTxn(id, user, direction, amount).postings;
    InversePairIsValid(amount.currency, postings[0], postings[1]);
    AdjustmentIsGood(id, user, direction, amount);
    InverseNets(postings, user, amount.currency, Signed(direction, amount));
    assert postings == [postings[0], postings[1]];
  }

  lemma FoundIsUnique(log: seq<Txn>, t: Txn)
    requires WellPosted(log) && t in log
    ensures Find(log, t.key) == Some(t)
  {
    var i :| 0 <= i < |log| && log[i] == t;
    FindSpec(log, t.key);
    var j :| 0 <= j < |log| && log[j] == Find(log, t.key).value && log[j].key == t.key;
    assert i == j;
  }

  lemma ReversingShifts(b: Book, id: Id, user: Id, direction: Direction, amount: Money)
    requires WellPosted(b.log) && AdjustmentTxn(id, user, direction, amount) in b.log && ValidStake(amount)
    requires !HasKey(b.log, AdjustmentReversal(id))
    ensures ReverseSettlement(b, id).Ok?
    ensures Shifts(b, ReverseSettlement(b, id).value, user, amount.currency, -Signed(direction, amount))
  {
    var t := AdjustmentTxn(id, user, direction, amount);
    FoundIsUnique(b.log, t);
    InverseIsValid(id, user, direction, amount);
    PostedShifts(b, Txn(ReversalKind, AdjustmentReversal(id), t.currency, Negated(t.postings)), user, amount.currency,
                 -Signed(direction, amount));
  }

  lemma RecordedInLog(b: Book, id: Id)
    requires PaymentsSound(b) && HasKey(b.log, Adjustment(id))
    ensures exists user, direction, amount :: ValidStake(amount) && AdjustmentTxn(id, user, direction, amount) in b.log
  {
    var i :| 0 <= i < |b.log| && b.log[i].key == Adjustment(id);
    assert Paid(b, b.log[i]);
    var user, direction, amount :| ValidStake(amount) && b.log[i] == AdjustmentTxn(id, user, direction, amount);
    assert AdjustmentTxn(id, user, direction, amount) in b.log;
  }

  /** Every recorded settle-up can be reversed, once: the reversal commits
      exactly when it was recorded and not yet reversed. */
  lemma ReversedExactlyOnce(ops: seq<Op>, id: Id)
    ensures ReverseSettlement(Run(ops), id).Ok?
      <==> HasKey(Run(ops).log, Adjustment(id)) && !HasKey(Run(ops).log, AdjustmentReversal(id))
  {
    RunIsHealthy(ops);
    var b := Run(ops);
    FindSpec(b.log, Adjustment(id));
    if HasKey(b.log, Adjustment(id)) && !HasKey(b.log, AdjustmentReversal(id)) {
      RecordedInLog(b, id);
      var user, direction, amount :| ValidStake(amount) && AdjustmentTxn(id, user, direction, amount) in b.log;
      ReversingShifts(b, id, user, direction, amount);
    }
  }

  /** A reversal takes back exactly what the settle-up moved, however much later
      it comes; straight after, it restores every account's balance. */
  lemma ReversalRestores(ops: seq<Op>, more: seq<Op>, id: Id, user: Id, direction: Direction, amount: Money)
    requires !HasKey(Run(ops).log, Adjustment(id)) && ValidStake(amount)
    requires !HasKey(Run(ops + [OpSettleUp(id, user, direction, amount)] + more).log, AdjustmentReversal(id))
    ensures var later := Run(ops + [OpSettleUp(id, user, direction, amount)] + more);
      && Shifts(later, Step(later, OpReverse(id)), user, amount.currency, -Signed(direction, amount))
      && (more == [] ==> forall x :: Balance(Step(later, OpReverse(id)), x) == Balance(Run(ops), x))
  {
    var first := ops + [OpSettleUp(id, user, direction, amount)];
    var b, later := Run(ops), Run(first + more);
    RecordedLater(ops, more, id, user, direction, amount);
    LaterReversal(first + more, id, user, direction, amount);
    if more == [] {
      assert first + more == first;
      ShiftsCancel(b, later, Step(later, OpReverse(id)), user, amount.currency, Signed(direction, amount));
    }
  }

  lemma RecordedLater(ops: seq<Op>, more: seq<Op>, id: Id, user: Id, direction: Direction, amount: Money)
    requires !HasKey(Run(ops).log, Adjustment(id)) && ValidStake(amount)
    ensures var first := ops + [OpSettleUp(id, user, direction, amount)];
      && Shifts(Run(ops), Run(first), user, amount.currency, Signed(direction, amount))
      && AdjustmentTxn(id, user, direction, amount) in Run(first + more).log
  {
    var op := OpSettleUp(id, user, direction, amount);
    var first, all := ops + [op], ops + [op] + more;
    var b, done, later := Run(ops), Run(first), Run(all);
    assert first[..|ops|] == ops && all[..|first|] == first;
    RecordingShifts(b, id, user, direction, amount);
    assert done == Step(b, op);
    HistoryOnlyGrows(all, |first|);
    assert later.log[|b.log|] == AdjustmentTxn(id, user, direction, amount);
  }

  lemma RunIsWellPosted(ops: seq<Op>)
    ensures WellPosted(Run(ops).log)
  {
    RunIsHealthy(ops);
  }

  lemma LaterReversal(all: seq<Op>, id: Id, user: Id, direction: Direction, amount: Money)
    requires AdjustmentTxn(id, user, direction, amount) in Run(all).log && ValidStake(amount)
    requires !HasKey(Run(all).log, AdjustmentReversal(id))
    ensures Shifts(Run(all), Step(Run(all), OpReverse(id)), user, amount.currency, -Signed(direction, amount))
  {
    RunIsWellPosted(all);
    ReversingShifts(Run(all), id, user, direction, amount);
    assert Step(Run(all), OpReverse(id)) == ReverseSettlement(Run(all), id).value;
  }

  lemma ShiftsCancel(a: Book, b: Book, c: Book, user: Id, currency: Currency, cents: int)
    requires Shifts(a, b, user, currency, cents) && Shifts(b, c, user, currency, -cents)
    ensures forall x :: Balance(c, x) == Balance(a, x)
  {
    forall x ensures Balance(c, x) == Balance(a, x) {
      assert Balance(b, x) == Balance(a, x) + ShiftOf(user, currency, cents, x);
    }
  }
}
