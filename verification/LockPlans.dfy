/** The locks of each book transaction in the order it takes them (internal/
    bettingpg: place.go, accept.go, reducewager.go, voidwager.go, adjust.go,
    reprice.go, setline.go, market.go, parlay.go), and which pairs of them can
    deadlock. */
module LockPlans {
  import opened Results
  import opened Ledger
  import opened Totals
  import opened LockOrder

  // ---- Plans in parts -----------------------------------------------------------------

  /** One lock, or the three accounts of a member who is paid. */
  datatype Part = One(lock: Lock) | Accounts(user: Account)

  function LocksOf(part: Part, c: Currency): seq<Lock> {
    match part
    case One(lock) => [lock]
    case Accounts(user) => [Take(AccountRow(user)), Take(AccountRow(Escrow(c))), Take(AccountRow(House(c)))]
  }

  function PlanOf(parts: seq<Part>, c: Currency): seq<Lock> {
    if parts == [] then [] else PlanOf(parts[..|parts| - 1], c) + LocksOf(parts[|parts| - 1], c)
  }

  function Each(rows: seq<Row>, shared: bool): (r: seq<Part>)
    ensures |r| == |rows| && forall i :: 0 <= i < |rows| ==> r[i] == One(Lock(rows[i], shared))
  {
    seq(|rows|, i requires 0 <= i < |rows| => One(Lock(rows[i], shared)))
  }

  function Pays(users: seq<Account>): (r: seq<Part>)
    ensures |r| == |users| && forall i :: 0 <= i < |users| ==> r[i] == Accounts(users[i])
  {
    seq(|users|, i requires 0 <= i < |users| => Accounts(users[i]))
  }

  lemma {:induction false} InPlan(parts: seq<Part>, c: Currency, lock: Lock)
    ensures lock in PlanOf(parts, c) <==> exists i :: 0 <= i < |parts| && lock in LocksOf(parts[i], c)
  {
    if parts != [] {
      var init := parts[..|parts| - 1];
      InPlan(init, c, lock);
      if lock in PlanOf(init, c) {
        var i :| 0 <= i < |init| && lock in LocksOf(init[i], c);
        assert parts[i] == init[i];
      }
      if i :| 0 <= i < |parts| && lock in LocksOf(parts[i], c) {
        assert i < |init| ==> init[i] == parts[i];
      }
    }
  }

  // ---- The transactions -------------------------------------------------------------------

  /** PlaceWager: the side's row, then what its insert refers to. */
  function PlacePlan(selection: Id, market: Id): seq<Lock> {
    [Take(SelectionRow(selection)), Share(MarketRow(market))]
  }

  /** PlaceParlay: its legs' inserts share their selections. */
  function PlaceParlayPlan(selections: seq<Id>): (r: seq<Lock>)
    ensures |r| == |selections| && forall i :: 0 <= i < |r| ==> r[i] == Share(SelectionRow(selections[i]))
  {
    seq(|selections|, i requires 0 <= i < |selections| => Share(SelectionRow(selections[i])))
  }

  /** AcceptWager or AcceptParlay: its own row, the three accounts, and the
      member's again to spend from. */
  function AcceptPlan(own: Row, user: Account): seq<Lock> {
    [Take(own), Take(AccountRow(user)), Take(AccountRow(Escrow(user.currency))), Take(AccountRow(House(user.currency))),
     Take(AccountRow(user))]
  }

  /** ReduceWager and VoidWager. */
  function RefundPlan(wager: Id, user: Account): seq<Lock> {
    [Take(WagerRow(wager)), Take(AccountRow(user)), Take(AccountRow(Escrow(user.currency)))]
  }

  /** RecordSettlement. */
  function SettleUpPlan(user: Account): seq<Lock> {
    [Take(AccountRow(user)), Take(AccountRow(House(user.currency)))]
  }

  function Selections(ids: seq<Id>): (r: seq<Lock>)
    ensures |r| == |ids| && forall i :: 0 <= i < |ids| ==> r[i] == Take(SelectionRow(ids[i]))
  {
    seq(|ids|, i requires 0 <= i < |ids| => Take(SelectionRow(ids[i])))
  }

  /** RepriceMarketAfterWager: the market, then its selections by ID. */
  function RepricePlan(market: Id, selections: seq<Id>): seq<Lock> {
    [Take(MarketRow(market))] + Selections(selections)
  }

  /** SetOpeningLine writes one selection first. */
  function SetLinePlan(market: Id, selection: Id, selections: seq<Id>): seq<Lock> {
    RepricePlan(market, [selection] + selections)
  }

  /** A parlay that a settlement visits, and whom it pays when it settles it. */
  datatype Visit = Visit(parlay: Id, paid: Option<Account>)

  /** settleWith: the market's wagers by ID, who funded the accepted ones, the
      selections of the outcome rows (none for a void), and the parlays in the
      order they are visited. */
  datatype Settlement = Settlement(
    market: Id, wagers: seq<Id>, users: seq<Account>, outcomes: seq<Id>, visits: seq<Visit>, currency: Currency)

  function WagerRows(ids: seq<Id>): (r: seq<Row>)
    ensures |r| == |ids| && forall i :: 0 <= i < |ids| ==> r[i] == WagerRow(ids[i])
  {
    seq(|ids|, i requires 0 <= i < |ids| => WagerRow(ids[i]))
  }

  function SelectionRows(ids: seq<Id>): (r: seq<Row>)
    ensures |r| == |ids| && forall i :: 0 <= i < |ids| ==> r[i] == SelectionRow(ids[i])
  {
    seq(|ids|, i requires 0 <= i < |ids| => SelectionRow(ids[i]))
  }

  function LegRows(visits: seq<Visit>, market: Id): (r: seq<Row>)
    ensures |r| == |visits| && forall i :: 0 <= i < |visits| ==> r[i] == LegRow(visits[i].parlay, market)
  {
    seq(|visits|, i requires 0 <= i < |visits| => LegRow(visits[i].parlay, market))
  }

  function VisitParts(visits: seq<Visit>): seq<Part> {
    if visits == [] then []
    else VisitParts(visits[..|visits| - 1]) + VisitPart(visits[|visits| - 1])
  }

  function VisitPart(visit: Visit): seq<Part> {
    if visit.paid.Some? then [One(Take(ParlayRow(visit.parlay))), Accounts(visit.paid.value)]
    else [One(Take(ParlayRow(visit.parlay)))]
  }

  function OwnRows(s: Settlement): (r: seq<Part>)
    ensures forall i :: 0 <= i < |r| ==> r[i].One?
  {
    [One(Take(MarketRow(s.market)))] + Each(WagerRows(s.wagers), false)
  }

  function OutcomeRows(s: Settlement): (r: seq<Part>)
    ensures forall i :: 0 <= i < |r| ==> r[i].One?
  {
    Each(SelectionRows(s.outcomes), true) + Each(LegRows(s.visits, s.market), false)
  }

  /** Market and wagers, the accounts of each accepted one, the outcome rows'
      selections and the parlay legs, and each parlay with the accounts of its
      payment. */
  function SettleParts(s: Settlement): seq<Part> {
    OwnRows(s) + Pays(s.users) + OutcomeRows(s) + VisitParts(s.visits)
  }

  function SettlePlan(s: Settlement): seq<Lock> {
    PlanOf(SettleParts(s), s.currency)
  }

  function PaidBy(visits: seq<Visit>): seq<Account> {
    if visits == [] then []
    else
      var last := visits[|visits| - 1];
      PaidBy(visits[..|visits| - 1]) + if last.paid.Some? then [last.paid.value] else []
  }

  /** The funding accounts of everything the settlement pays, in order. */
  function Funders(s: Settlement): seq<Account> {
    s.users + PaidBy(s.visits)
  }

  predicate MembersOf(users: seq<Account>, c: Currency) {
    forall i :: 0 <= i < |users| ==> users[i].Member? && users[i].currency == c
  }

  predicate OneAccount(users: seq<Account>) {
    forall i :: 0 <= i < |users| ==> users[i] == users[0]
  }

  predicate Ascending(ids: seq<Id>) {
    forall i, j :: 0 <= i < j < |ids| ==> ids[i] < ids[j]
  }

  // ---- Transactions in the lock order -------------------------------------------------------

  lemma PlansInOrder(own: Row, wager: Id, user: Account, market: Id, selections: seq<Id>)
    requires user.Member? && (own.WagerRow? || own.ParlayRow?) && Ascending(selections)
    ensures InOrder(AcceptPlan(own, user)) && InOrder(RefundPlan(wager, user)) && InOrder(SettleUpPlan(user))
    ensures InOrder(RepricePlan(market, selections))
  {
    var plan := AcceptPlan(own, user);
    assert plan[1] in plan[..4];
    forall j | 0 <= j < |plan| ensures FirstIsAbove(plan, j) {
    }
  }

  // ---- Who is paid in what order ---------------------------------------------------------------

  function FundersOf(parts: seq<Part>): seq<Account> {
    if parts == [] then []
    else
      var last := parts[|parts| - 1];
      FundersOf(parts[..|parts| - 1]) + if last.Accounts? then [last.user] else []
  }

  lemma {:induction false} FundersConcat(a: seq<Part>, b: seq<Part>)
    ensures FundersOf(a + b) == FundersOf(a) + FundersOf(b)
  {
    if b == [] {
      assert a + b == a;
    } else {
      FundersConcat(a, b[..|b| - 1]);
      assert (a + b)[..|a + b| - 1] == a + b[..|b| - 1];
    }
  }

  lemma {:induction false} RowsPayNobody(parts: seq<Part>)
    requires forall i :: 0 <= i < |parts| ==> parts[i].One?
    ensures FundersOf(parts) == []
  {
    if parts != [] {
      RowsPayNobody(parts[..|parts| - 1]);
    }
  }

  lemma {:induction false} PaysAll(users: seq<Account>)
    ensures FundersOf(Pays(users)) == users
  {
    if users != [] {
      PaysAll(users[..|users| - 1]);
      assert Pays(users)[..|users| - 1] == Pays(users[..|users| - 1]);
    }
  }

  lemma VisitPays(visit: Visit)
    ensures FundersOf(VisitPart(visit)) == if visit.paid.Some? then [visit.paid.value] else []
  {
    var part := VisitPart(visit);
    RowsPayNobody(part[..1]);
    assert part[..1][..0] == [];
  }

  lemma {:induction false} VisitsPay(visits: seq<Visit>)
    ensures FundersOf(VisitParts(visits)) == PaidBy(visits)
  {
    if visits != [] {
      VisitsPay(visits[..|visits| - 1]);
      VisitPays(visits[|visits| - 1]);
      FundersConcat(VisitParts(visits[..|visits| - 1]), VisitPart(visits[|visits| - 1]));
    }
  }

  lemma FundersAre(s: Settlement)
    ensures FundersOf(SettleParts(s)) == Funders(s)
  {
    RowsPayNobody(OwnRows(s));
    PaysAll(s.users);
    RowsPayNobody(OutcomeRows(s));
    VisitsPay(s.visits);
    InFourParts(OwnRows(s), Pays(s.users), OutcomeRows(s), VisitParts(s.visits));
  }

  lemma InFourParts(own: seq<Part>, pays: seq<Part>, rows: seq<Part>, visits: seq<Part>)
    requires FundersOf(own) == [] && FundersOf(rows) == []
    ensures FundersOf(own + pays + rows + visits) == FundersOf(pays) + FundersOf(visits)
  {
    FundersConcat(own, pays);
    FundersConcat(own + pays, rows);
    FundersConcat(own + pays + rows, visits);
  }

  // ---- What a settlement's plan looks like -------------------------------------------------

  predicate HasRow(plan: seq<Lock>, n: nat, row: Row) {
    exists k :: 0 <= k < n && k < |plan| && plan[k].row == row
  }

  /** The first funder's account comes before any other account, escrow before
      the house and before every other funder's. */
  predicate IsGated(plan: seq<Lock>, i: nat, first: Account, c: Currency)
    requires i < |plan|
  {
    match plan[i].row
    case AccountRow(Member(_, _, _)) => plan[i].row == AccountRow(first) || HasRow(plan, i, AccountRow(Escrow(c)))
    case AccountRow(Escrow(x)) => x == c && HasRow(plan, i, AccountRow(first))
    case AccountRow(House(x)) => x == c && HasRow(plan, i, AccountRow(Escrow(c))) && HasRow(plan, i, AccountRow(first))
    case _ => true
  }

  predicate AllGated(plan: seq<Lock>, first: Account, c: Currency) {
    forall i :: 0 <= i < |plan| ==> IsGated(plan, i, first, c)
  }

  predicate PaysNobody(plan: seq<Lock>) {
    forall i :: 0 <= i < |plan| ==> !plan[i].row.AccountRow?
  }

  predicate RowsOnly(parts: seq<Part>) {
    forall i :: 0 <= i < |parts| ==> parts[i].One? ==> !parts[i].lock.row.AccountRow?
  }

  lemma {:induction false} NoFunderNoAccount(parts: seq<Part>, c: Currency)
    requires RowsOnly(parts) && FundersOf(parts) == []
    ensures PaysNobody(PlanOf(parts, c))
  {
    if parts != [] {
      NoFunderNoAccount(parts[..|parts| - 1], c);
    }
  }

  lemma MoreIsGated(plan: seq<Lock>, more: seq<Lock>, i: nat, first: Account, c: Currency)
    requires i < |plan| && IsGated(plan, i, first, c)
    ensures IsGated(plan + more, i, first, c)
  {
    forall row | HasRow(plan, i, row) ensures HasRow(plan + more, i, row) {
      var k :| 0 <= k < i && plan[k].row == row;
      assert (plan + more)[k] == plan[k];
    }
  }

  lemma HasRowMore(plan: seq<Lock>, more: seq<Lock>, n: nat, row: Row)
    requires HasRow(plan, n, row) && n <= |plan|
    ensures forall m :: n <= m ==> HasRow(plan + more, m, row)
  {
    var k :| 0 <= k < n && plan[k].row == row;
    assert (plan + more)[k] == plan[k];
  }

  /** Every funder's account and escrow are in the plan. */
  lemma {:induction false} FunderIsIn(parts: seq<Part>, c: Currency, k: nat)
    requires k < |FundersOf(parts)|
    ensures var plan := PlanOf(parts, c);
      HasRow(plan, |plan|, AccountRow(FundersOf(parts)[k])) && HasRow(plan, |plan|, AccountRow(Escrow(c)))
  {
    var init, last := parts[..|parts| - 1], parts[|parts| - 1];
    var before, plan := PlanOf(init, c), PlanOf(parts, c);
    if k < |FundersOf(init)| {
      FunderIsIn(init, c, k);
      HasRowMore(before, LocksOf(last, c), |before|, AccountRow(FundersOf(init)[k]));
      HasRowMore(before, LocksOf(last, c), |before|, AccountRow(Escrow(c)));
    } else {
      assert plan[|before|].row == AccountRow(last.user) && plan[|before| + 1].row == AccountRow(Escrow(c));
    }
  }

  /** A payment after `before`, which holds the first funder's account and escrow
      unless this is the first payment. */
  lemma PaymentIsGated(before: seq<Lock>, user: Account, first: Account, c: Currency, i: nat)
    requires user.Member? && |before| <= i < |before| + 3
    requires user == first || (HasRow(before, |before|, AccountRow(first)) && HasRow(before, |before|, AccountRow(Escrow(c))))
    ensures IsGated(before + LocksOf(Accounts(user), c), i, first, c)
  {
    var group := LocksOf(Accounts(user), c);
    var plan := before + group;
    if user != first {
      HasRowMore(before, group, |before|, AccountRow(first));
      HasRowMore(before, group, |before|, AccountRow(Escrow(c)));
    }
    assert plan[|before|].row == AccountRow(user) && plan[|before| + 1].row == AccountRow(Escrow(c));
    assert plan[|before| + 2].row == AccountRow(House(c));
  }

  lemma FunderIsNext(init: seq<Part>, last: Part, c: Currency, i: nat)
    requires last.Accounts? && last.user.Member? && |PlanOf(init, c)| <= i < |PlanOf(init, c)| + 3
    ensures var first := if FundersOf(init) == [] then last.user else FundersOf(init)[0];
      IsGated(PlanOf(init, c) + LocksOf(last, c), i, first, c)
  {
    if FundersOf(init) != [] {
      FunderIsIn(init, c, 0);
      PaymentIsGated(PlanOf(init, c), last.user, FundersOf(init)[0], c, i);
    } else {
      PaymentIsGated(PlanOf(init, c), last.user, last.user, c, i);
    }
  }

  lemma {:induction false} PlanIsGated(parts: seq<Part>, c: Currency)
    requires RowsOnly(parts) && MembersOf(FundersOf(parts), c) && FundersOf(parts) != []
    ensures AllGated(PlanOf(parts, c), FundersOf(parts)[0], c)
  {
    var init, last := parts[..|parts| - 1], parts[|parts| - 1];
    var first, before, plan := FundersOf(parts)[0], PlanOf(init, c), PlanOf(parts, c);
    if FundersOf(init) == [] {
      NoFunderNoAccount(init, c);
      assert AllGated(before, first, c);
    } else {
      assert forall i :: 0 <= i < |FundersOf(init)| ==> FundersOf(init)[i] == FundersOf(parts)[i];
      PlanIsGated(init, c);
      assert FundersOf(init)[0] == first;
    }
    assert last.Accounts? ==> FundersOf(parts)[|FundersOf(parts)| - 1] == last.user;
    forall i | 0 <= i < |plan| ensures IsGated(plan, i, first, c) {
      if i < |before| {
        MoreIsGated(before, LocksOf(last, c), i, first, c);
      } else if last.Accounts? {
        FunderIsNext(init, last, c, i);
      }
    }
  }

  // ---- Settlement and acceptance ------------------------------------------------------------

  /** A wager or parlay that is not the settlement's to grade. */
  predicate IsElsewhere(s: Settlement, own: Row) {
    (own.WagerRow? && own.id !in s.wagers) || (own.ParlayRow? && forall v :: v in s.visits ==> v.parlay != own.id)
  }

  /** Some acceptance elsewhere and some schedule deadlock with the settlement. */
  ghost predicate BlocksAcceptance(s: Settlement) {
    exists own, user: Account :: user.Member? && IsElsewhere(s, own) && CanDeadlock(SettlePlan(s), AcceptPlan(own, user))
  }

  predicate IsOwnLock(s: Settlement, lock: Lock) {
    match lock.row
    case MarketRow(id) => id == s.market && !lock.shared
    case SelectionRow(id) => id in s.outcomes && lock.shared
    case WagerRow(id) => id in s.wagers && !lock.shared
    case LegRow(parlay, market) => market == s.market && !lock.shared
    case ParlayRow(id) => (exists v :: v in s.visits && v.parlay == id) && !lock.shared
    case AccountRow(_) => !lock.shared
  }

  predicate OwnLocks(s: Settlement, parts: seq<Part>) {
    forall i :: 0 <= i < |parts| ==> parts[i].One? ==> IsOwnLock(s, parts[i].lock)
  }

  lemma {:induction false} VisitsAreOwn(s: Settlement, visits: seq<Visit>)
    requires forall v :: v in visits ==> v in s.visits
    ensures OwnLocks(s, VisitParts(visits)) && RowsOnly(VisitParts(visits))
  {
    if visits != [] {
      VisitsAreOwn(s, visits[..|visits| - 1]);
      assert visits[|visits| - 1] in s.visits;
    }
  }

  lemma PartsAreOwn(s: Settlement)
    ensures OwnLocks(s, SettleParts(s)) && RowsOnly(SettleParts(s))
  {
    VisitsAreOwn(s, s.visits);
    var wagers, outcomes, legs := WagerRows(s.wagers), SelectionRows(s.outcomes), LegRows(s.visits, s.market);
    assert OwnLocks(s, Each(wagers, false)) && OwnLocks(s, Each(outcomes, true)) && OwnLocks(s, Each(legs, false));
    assert OwnLocks(s, OwnRows(s)) && OwnLocks(s, OutcomeRows(s));
  }

  lemma PlanIsOwn(s: Settlement)
    ensures forall i :: 0 <= i < |SettlePlan(s)| ==> IsOwnLock(s, SettlePlan(s)[i])
  {
    PartsAreOwn(s);
    var parts, plan := SettleParts(s), SettlePlan(s);
    forall i | 0 <= i < |plan| ensures IsOwnLock(s, plan[i]) {
      InPlan(parts, s.currency, plan[i]);
      var k :| 0 <= k < |parts| && plan[i] in LocksOf(parts[k], s.currency);
    }
  }

  /** A settlement never takes a row alone that it shared. */
  lemma SettlementKeepsModes(s: Settlement)
    ensures KeepsModes(SettlePlan(s))
  {
    PlanIsOwn(s);
  }

  lemma SettlementIsGated(s: Settlement)
    requires MembersOf(Funders(s), s.currency)
    ensures Funders(s) == [] ==> PaysNobody(SettlePlan(s))
    ensures Funders(s) != [] ==> AllGated(SettlePlan(s), Funders(s)[0], s.currency)
  {
    PartsAreOwn(s);
    FundersAre(s);
    if Funders(s) == [] {
      NoFunderNoAccount(SettleParts(s), s.currency);
    } else {
      PlanIsGated(SettleParts(s), s.currency);
    }
  }

  /** Only funders' accounts, escrow and house are in the plan. */
  lemma {:induction false} MembersAreFunders(parts: seq<Part>, c: Currency, i: nat)
    requires RowsOnly(parts) && i < |PlanOf(parts, c)| && PlanOf(parts, c)[i].row.AccountRow?
    ensures var account := PlanOf(parts, c)[i].row.account;
      account.Member? ==> account in FundersOf(parts)
  {
    var init, last := parts[..|parts| - 1], parts[|parts| - 1];
    if i < |PlanOf(init, c)| {
      MembersAreFunders(init, c, i);
    }
  }

  lemma MemberIsFunder(s: Settlement, i: nat)
    requires i < |SettlePlan(s)| && SettlePlan(s)[i].row.AccountRow? && SettlePlan(s)[i].row.account.Member?
    ensures SettlePlan(s)[i].row.account in Funders(s)
  {
    PartsAreOwn(s);
    FundersAre(s);
    MembersAreFunders(SettleParts(s), s.currency, i);
  }

  /** The first lock of the settlement that an acceptance also wants. */
  lemma FirstIsGated(s: Settlement, own: Row, user: Account, i: nat)
    requires MembersOf(Funders(s), s.currency) && user.Member? && IsElsewhere(s, own)
    requires IsFirst(SettlePlan(s), AcceptPlan(own, user), i)
    ensures Funders(s) != [] && user.currency == s.currency
    ensures SettlePlan(s)[i].row == AccountRow(if user == Funders(s)[0] then user else Escrow(s.currency))
  {
    var plan, accept := SettlePlan(s), AcceptPlan(own, user);
    PlanIsOwn(s);
    SettlementIsGated(s);
    assert IsOwnLock(s, plan[i]);
    var k :| 0 <= k < |accept| && Conflicts(plan[i], accept[k]);
    assert k != 0;
    assert IsGated(plan, i, Funders(s)[0], s.currency);
    if plan[i].row.account.Member? {
      MemberIsFunder(s, i);
      assert user.currency == s.currency;
    }
    NoneBefore(plan, accept, i, AccountRow(Escrow(s.currency)));
    NoneBefore(plan, accept, i, AccountRow(user));
  }

  /** Nothing the other takes alone comes before the first contended lock. */
  lemma NoneBefore(plan: seq<Lock>, other: seq<Lock>, i: nat, row: Row)
    requires IsFirst(plan, other, i)
    ensures Take(row) in other ==> !HasRow(plan, i, row)
  {
    if Take(row) in other {
      var j :| 0 <= j < |other| && other[j] == Take(row);
      forall k | 0 <= k < i ensures plan[k].row != row {
        assert !IsContended(plan[k], other) && !Conflicts(plan[k], other[j]);
      }
    }
  }

  lemma FunderHasRows(s: Settlement, k: nat) returns (i: nat, j: nat)
    requires k < |Funders(s)|
    ensures i < |SettlePlan(s)| && SettlePlan(s)[i] == Take(AccountRow(Funders(s)[k]))
    ensures j < |SettlePlan(s)| && SettlePlan(s)[j] == Take(AccountRow(Escrow(s.currency)))
  {
    FundersAre(s);
    FunderIsIn(SettleParts(s), s.currency, k);
    PlanIsOwn(s);
    i :| 0 <= i < |SettlePlan(s)| && SettlePlan(s)[i].row == AccountRow(Funders(s)[k]);
    j :| 0 <= j < |SettlePlan(s)| && SettlePlan(s)[j].row == AccountRow(Escrow(s.currency));
    assert IsOwnLock(s, SettlePlan(s)[i]) && IsOwnLock(s, SettlePlan(s)[j]);
  }

  /** The first lock of an acceptance that the settlement also wants: the member's
      account when the settlement pays the member, else escrow. */
  lemma AcceptStartsWith(s: Settlement, own: Row, user: Account, j: nat)
    requires MembersOf(Funders(s), s.currency) && Funders(s) != [] && user.Member? && user.currency == s.currency
    requires IsElsewhere(s, own) && IsFirst(AcceptPlan(own, user), SettlePlan(s), j)
    ensures AcceptPlan(own, user)[j].row == AccountRow(if user in Funders(s) then user else Escrow(s.currency))
  {
    var plan, accept := SettlePlan(s), AcceptPlan(own, user);
    PlanIsOwn(s);
    var k :| 0 <= k < |plan| && Conflicts(accept[j], plan[k]);
    assert IsOwnLock(s, plan[k]) && j != 0;
    var _, e := FunderHasRows(s, 0);
    assert Conflicts(accept[2], plan[e]) && IsContended(accept[2], plan) && j <= 2;
    if user in Funders(s) {
      var f :| 0 <= f < |Funders(s)| && Funders(s)[f] == user;
      var u, _ := FunderHasRows(s, f);
      assert Conflicts(accept[1], plan[u]) && IsContended(accept[1], plan);
    } else if j == 1 {
      MemberIsFunder(s, k);
    }
  }

  /** A settlement deadlocks with an acceptance elsewhere exactly when it pays the
      accepting member, but somebody else first. */
  lemma AcceptanceDeadlocksExactly(s: Settlement, own: Row, user: Account)
    requires MembersOf(Funders(s), s.currency) && user.Member? && IsElsewhere(s, own)
    ensures CanDeadlock(SettlePlan(s), AcceptPlan(own, user)) <==> user in Funders(s) && user != Funders(s)[0]
  {
    var plan, accept := SettlePlan(s), AcceptPlan(own, user);
    SettlementKeepsModes(s);
    TwoDeadlockExactly(plan, accept);
    if StartApart(plan, accept) {
      var i: nat, j: nat :| IsFirst(plan, accept, i) && IsFirst(accept, plan, j) && plan[i].row != accept[j].row;
      FirstIsGated(s, own, user, i);
      AcceptStartsWith(s, own, user, j);
    }
    if user in Funders(s) && user != Funders(s)[0] {
      PaidLaterStartsApart(s, own, user);
    }
  }

  lemma PaidLaterStartsApart(s: Settlement, own: Row, user: Account)
    requires MembersOf(Funders(s), s.currency) && user.Member? && IsElsewhere(s, own)
    requires user in Funders(s) && user != Funders(s)[0]
    ensures StartApart(SettlePlan(s), AcceptPlan(own, user))
  {
    var plan, accept := SettlePlan(s), AcceptPlan(own, user);
    var f :| 0 <= f < |Funders(s)| && Funders(s)[f] == user;
    var u, _ := FunderHasRows(s, f);
    assert Conflicts(plan[u], accept[1]) && Conflicts(accept[1], plan[u]);
    assert IsContended(plan[u], accept) && IsContended(accept[1], plan);
    var i := FirstContended(plan, accept, u);
    var j := FirstContended(accept, plan, 1);
    FirstIsGated(s, own, user, i);
    AcceptStartsWith(s, own, user, j);
  }

  /** Some acceptance can deadlock with the settlement exactly when what it pays
      is not all funded from one account; the database then aborts one of them. */
  lemma SettlementDeadlocksExactly(s: Settlement)
    requires MembersOf(Funders(s), s.currency)
    ensures BlocksAcceptance(s) <==> !OneAccount(Funders(s))
  {
    if BlocksAcceptance(s) {
      var own, user: Account :| user.Member? && IsElsewhere(s, own) && CanDeadlock(SettlePlan(s), AcceptPlan(own, user));
      AcceptanceDeadlocksExactly(s, own, user);
    }
    if !OneAccount(Funders(s)) {
      var f :| 0 <= f < |Funders(s)| && Funders(s)[f] != Funders(s)[0];
      var wager := FreshId(s.wagers);
      assert IsElsewhere(s, WagerRow(wager));
      AcceptanceDeadlocksExactly(s, WagerRow(wager), Funders(s)[f]);
    }
  }

  lemma {:induction false} FreshId(ids: seq<Id>) returns (id: Id)
    ensures forall i :: 0 <= i < |ids| ==> ids[i] < id
  {
    if ids == [] {
      id := 0;
    } else {
      var rest := FreshId(ids[..|ids| - 1]);
      id := if ids[|ids| - 1] < rest then rest else ids[|ids| - 1] + 1;
    }
  }

  // ---- Placement and the transactions that lock a whole market --------------------------------

  /** It takes one market's row first and no other market's. */
  predicate LocksMarketFirst(plan: seq<Lock>, market: Id) {
    && plan != [] && plan[0] == Take(MarketRow(market))
    && forall i :: 0 < i < |plan| ==> !plan[i].row.MarketRow?
  }

  /** A placement locks its side and then needs the market, so it can deadlock
      with whatever locks that market and then needs that side. */
  lemma PlacementDeadlocksExactly(plan: seq<Lock>, market: Id, side: Id, placed: Id)
    requires KeepsModes(plan) && LocksMarketFirst(plan, market)
    ensures CanDeadlock(plan, PlacePlan(side, placed)) <==> placed == market && HasRow(plan, |plan|, SelectionRow(side))
  {
    var place := PlacePlan(side, placed);
    TwoDeadlockExactly(plan, place);
    if StartApart(plan, place) {
      var i: nat, j: nat :| IsFirst(plan, place, i) && IsFirst(place, plan, j) && plan[i].row != place[j].row;
      var k :| 0 <= k < |place| && Conflicts(plan[i], place[k]);
      var l :| 0 <= l < |plan| && Conflicts(place[j], plan[l]);
      assert plan[i].row in {SelectionRow(side), MarketRow(placed)} && plan[l].row == place[j].row;
    }
    if placed == market && HasRow(plan, |plan|, SelectionRow(side)) {
      var l :| 0 <= l < |plan| && plan[l].row == SelectionRow(side);
      assert Conflicts(place[0], plan[l]) && IsContended(place[0], plan) && IsFirst(place, plan, 0);
      assert Conflicts(plan[0], place[1]) && IsContended(plan[0], place) && IsFirst(plan, place, 0);
    }
  }

  /** Repricing a market, automatic or by hand, can deadlock with exactly the
      placements on its own sides. */
  lemma RepricingDeadlocksExactly(market: Id, selections: seq<Id>, moved: Id, side: Id, placed: Id)
    requires moved in selections
    ensures CanDeadlock(RepricePlan(market, selections), PlacePlan(side, placed)) <==> placed == market && side in selections
    ensures CanDeadlock(SetLinePlan(market, moved, selections), PlacePlan(side, placed)) <==> placed == market && side in selections
  {
    PlacementDeadlocksExactly(RepricePlan(market, selections), market, side, placed);
    PlacementDeadlocksExactly(SetLinePlan(market, moved, selections), market, side, placed);
    RepriceRows(market, selections, side);
    RepriceRows(market, [moved] + selections, side);
  }

  lemma RepriceRows(market: Id, selections: seq<Id>, side: Id)
    ensures var plan := RepricePlan(market, selections); HasRow(plan, |plan|, SelectionRow(side)) <==> side in selections
  {
    var plan := RepricePlan(market, selections);
    if side in selections {
      var i :| 0 <= i < |selections| && selections[i] == side;
      assert plan[i + 1] == Selections(selections)[i];
    }
    if HasRow(plan, |plan|, SelectionRow(side)) {
      var k :| 0 <= k < |plan| && plan[k].row == SelectionRow(side);
      assert plan[k] == Selections(selections)[k - 1];
    }
  }

  /** Grading a market can deadlock with exactly the placements on its own sides;
      a void, which has no outcome rows, with none. */
  lemma GradingDeadlocksExactly(s: Settlement, side: Id, placed: Id)
    ensures CanDeadlock(SettlePlan(s), PlacePlan(side, placed)) <==> placed == s.market && side in s.outcomes
  {
    SettlementKeepsModes(s);
    SettlementLocksMarketFirst(s);
    PlacementDeadlocksExactly(SettlePlan(s), s.market, side, placed);
    PlanIsOwn(s);
    if side in s.outcomes {
      OutcomeIsIn(s, side);
    }
  }

  lemma OutcomeIsIn(s: Settlement, side: Id)
    requires side in s.outcomes
    ensures HasRow(SettlePlan(s), |SettlePlan(s)|, SelectionRow(side))
  {
    var k :| 0 <= k < |s.outcomes| && s.outcomes[k] == side;
    var parts, n := SettleParts(s), |OwnRows(s)| + |Pays(s.users)| + k;
    assert parts[n] == OutcomeRows(s)[k] == One(Share(SelectionRow(side)));
    InPlan(parts, s.currency, Share(SelectionRow(side)));
  }

  lemma {:induction false} PlanConcat(a: seq<Part>, b: seq<Part>, c: Currency)
    ensures PlanOf(a + b, c) == PlanOf(a, c) + PlanOf(b, c)
  {
    if b == [] {
      assert a + b == a;
    } else {
      var init, last := b[..|b| - 1], b[|b| - 1];
      PlanConcat(a, init, c);
      assert (a + b)[..|a + b| - 1] == a + init && (a + b)[|a + b| - 1] == last;
      Associative(PlanOf(a, c), PlanOf(init, c), LocksOf(last, c));
    }
  }

  lemma FirstPart(parts: seq<Part>, c: Currency)
    requires parts != []
    ensures PlanOf(parts, c) == LocksOf(parts[0], c) + PlanOf(parts[1..], c)
  {
    PlanConcat(parts[..1], parts[1..], c);
    assert parts[..1][..0] == [] && parts == parts[..1] + parts[1..];
  }

  lemma SettlementLocksMarketFirst(s: Settlement)
    ensures LocksMarketFirst(SettlePlan(s), s.market)
  {
    var parts := SettleParts(s);
    FirstPart(parts, s.currency);
    assert parts[0] == One(Take(MarketRow(s.market)));
    var plan := SettlePlan(s);
    forall i | 0 < i < |plan| ensures !plan[i].row.MarketRow? {
      assert plan[i] == PlanOf(parts[1..], s.currency)[i - 1];
      InPlan(parts[1..], s.currency, plan[i]);
      var k :| 0 <= k < |parts[1..]| && plan[i] in LocksOf(parts[1..][k], s.currency);
      LaterPart(s, k);
    }
  }

  lemma LaterPart(s: Settlement, k: nat)
    requires k < |SettleParts(s)[1..]|
    ensures var part := SettleParts(s)[1..][k]; part.One? ==> !part.lock.row.MarketRow?
  {
    VisitsLockNoMarket(s.visits);
  }

  lemma {:induction false} VisitsLockNoMarket(visits: seq<Visit>)
    ensures forall part :: part in VisitParts(visits) ==> part.One? ==> !part.lock.row.MarketRow?
  {
    if visits != [] {
      VisitsLockNoMarket(visits[..|visits| - 1]);
    }
  }

  /** A parlay has at most one leg on a market, so its placement meets a
      repricing at one row only. */
  lemma ParlayPlacementNeverDeadlocks(market: Id, selections: seq<Id>, legs: seq<Id>)
    requires forall x, y :: x in legs && y in legs && x in selections && y in selections ==> x == y
    ensures !CanDeadlock(RepricePlan(market, selections), PlaceParlayPlan(legs))
  {
    var reprice, place := RepricePlan(market, selections), PlaceParlayPlan(legs);
    TwoDeadlockExactly(reprice, place);
    if StartApart(reprice, place) {
      var i: nat, j: nat :| IsFirst(reprice, place, i) && IsFirst(place, reprice, j) && reprice[i].row != place[j].row;
      var x := SharedSide(market, selections, legs, i);
      var l :| 0 <= l < |reprice| && Conflicts(place[j], reprice[l]);
      assert Conflicts(reprice[l], place[j]);
      var y := SharedSide(market, selections, legs, l);
    }
  }

  lemma SharedSide(market: Id, selections: seq<Id>, legs: seq<Id>, i: nat) returns (side: Id)
    requires i < |RepricePlan(market, selections)| && IsContended(RepricePlan(market, selections)[i], PlaceParlayPlan(legs))
    ensures side in legs && side in selections && RepricePlan(market, selections)[i].row == SelectionRow(side)
  {
    var k :| 0 <= k < |legs| && Conflicts(RepricePlan(market, selections)[i], PlaceParlayPlan(legs)[k]);
    side := legs[k];
    assert i > 0 && side == selections[i - 1];
  }

  // ---- Two settlements ---------------------------------------------------------------------------

  /** Settlements of different markets. */
  predicate AreDisjoint(s: Settlement, t: Settlement) {
    s.market != t.market && forall id :: id in s.wagers ==> id !in t.wagers
  }

  /** The first row a settlement takes that another market's might want: an
      account when it pays a wager, else the first parlay it visits. */
  predicate HasStart(s: Settlement) {
    s.users != [] || s.visits != []
  }

  function StartRow(s: Settlement): Row
    requires HasStart(s)
  {
    if s.users != [] then AccountRow(s.users[0]) else ParlayRow(s.visits[0].parlay)
  }

  /** The settlement pays from this account, or visits this parlay. */
  predicate Wants(s: Settlement, row: Row) {
    match row
    case AccountRow(account) => account in Funders(s)
    case ParlayRow(parlay) => exists v :: v in s.visits && v.parlay == parlay
    case _ => false
  }

  /** Rows no settlement of another market takes alone. */
  predicate IsPrivate(row: Row) {
    row.MarketRow? || row.WagerRow? || row.SelectionRow? || row.LegRow?
  }

  predicate StartsWith(plan: seq<Lock>, n: nat, row: Row) {
    n < |plan| && plan[n] == Take(row) && forall k :: 0 <= k < n ==> IsPrivate(plan[k].row)
  }

  lemma {:induction false} PrivateParts(parts: seq<Part>, c: Currency)
    requires forall i :: 0 <= i < |parts| ==> parts[i].One? && IsPrivate(parts[i].lock.row)
    ensures forall k :: 0 <= k < |PlanOf(parts, c)| ==> IsPrivate(PlanOf(parts, c)[k].row)
  {
    if parts != [] {
      PrivateParts(parts[..|parts| - 1], c);
    }
  }

  lemma {:induction false} FirstVisit(visits: seq<Visit>)
    requires visits != []
    ensures VisitParts(visits) != [] && VisitParts(visits)[0] == One(Take(ParlayRow(visits[0].parlay)))
  {
    if |visits| > 1 {
      FirstVisit(visits[..|visits| - 1]);
    } else {
      assert visits[..0] == [];
    }
  }

  lemma PlanStarts(head: seq<Part>, rest: seq<Part>, c: Currency, row: Row)
    requires forall i :: 0 <= i < |head| ==> head[i].One? && IsPrivate(head[i].lock.row)
    requires rest != [] && LocksOf(rest[0], c)[0] == Take(row)
    ensures StartsWith(PlanOf(head + rest, c), |PlanOf(head, c)|, row)
  {
    PlanConcat(head, rest, c);
    PrivateParts(head, c);
    FirstPart(rest, c);
  }

  lemma SettlementStarts(s: Settlement) returns (n: nat)
    requires HasStart(s)
    ensures StartsWith(SettlePlan(s), n, StartRow(s))
  {
    if s.users != [] {
      var rest := Pays(s.users) + OutcomeRows(s) + VisitParts(s.visits);
      assert SettleParts(s) == OwnRows(s) + rest;
      PlanStarts(OwnRows(s), rest, s.currency, StartRow(s));
      n := |PlanOf(OwnRows(s), s.currency)|;
    } else {
      FirstVisit(s.visits);
      var head := OwnRows(s) + OutcomeRows(s);
      assert SettleParts(s) == head + VisitParts(s.visits);
      PlanStarts(head, VisitParts(s.visits), s.currency, StartRow(s));
      n := |PlanOf(head, s.currency)|;
    }
  }

  lemma PrivateIsNotContended(s: Settlement, t: Settlement, k: nat)
    requires AreDisjoint(s, t) && k < |SettlePlan(s)| && IsPrivate(SettlePlan(s)[k].row)
    ensures !IsContended(SettlePlan(s)[k], SettlePlan(t))
  {
    PlanIsOwn(s);
    PlanIsOwn(t);
    assert IsOwnLock(s, SettlePlan(s)[k]);
    forall j | 0 <= j < |SettlePlan(t)| ensures !Conflicts(SettlePlan(s)[k], SettlePlan(t)[j]) {
      assert IsOwnLock(t, SettlePlan(t)[j]);
    }
  }

  lemma WantedIsIn(t: Settlement, row: Row) returns (j: nat)
    requires Wants(t, row)
    ensures j < |SettlePlan(t)| && SettlePlan(t)[j] == Take(row)
  {
    if row.AccountRow? {
      var k :| 0 <= k < |Funders(t)| && Funders(t)[k] == row.account;
      var i, _ := FunderHasRows(t, k);
      j := i;
    } else {
      var v :| v in t.visits && v.parlay == row.id;
      VisitIsIn(t.visits, v);
      var k :| 0 <= k < |VisitParts(t.visits)| && VisitParts(t.visits)[k] == One(Take(row));
      var n := |OwnRows(t)| + |Pays(t.users)| + |OutcomeRows(t)| + k;
      assert SettleParts(t)[n] == One(Take(row));
      InPlan(SettleParts(t), t.currency, Take(row));
      j :| 0 <= j < |SettlePlan(t)| && SettlePlan(t)[j] == Take(row);
    }
  }

  lemma {:induction false} VisitIsIn(visits: seq<Visit>, v: Visit)
    requires v in visits
    ensures One(Take(ParlayRow(v.parlay))) in VisitParts(visits)
  {
    if v != visits[|visits| - 1] {
      VisitIsIn(visits[..|visits| - 1], v);
    } else {
      assert VisitPart(v)[0] in VisitPart(v);
    }
  }

  lemma StartIsFirst(s: Settlement, t: Settlement) returns (n: nat)
    requires AreDisjoint(s, t) && HasStart(s) && Wants(t, StartRow(s))
    ensures IsFirst(SettlePlan(s), SettlePlan(t), n) && SettlePlan(s)[n].row == StartRow(s)
  {
    n := SettlementStarts(s);
    var j := WantedIsIn(t, StartRow(s));
    assert Conflicts(SettlePlan(s)[n], SettlePlan(t)[j]);
    forall k | 0 <= k < n ensures !IsContended(SettlePlan(s)[k], SettlePlan(t)) {
      PrivateIsNotContended(s, t, k);
    }
  }

  /** Two settlements that each want the other's first row can deadlock exactly
      when those are different rows. */
  lemma SettlementsDeadlockExactly(s: Settlement, t: Settlement)
    requires AreDisjoint(s, t) && HasStart(s) && HasStart(t) && Wants(t, StartRow(s)) && Wants(s, StartRow(t))
    ensures CanDeadlock(SettlePlan(s), SettlePlan(t)) <==> StartRow(s) != StartRow(t)
  {
    SettlementKeepsModes(s);
    SettlementKeepsModes(t);
    TwoDeadlockExactly(SettlePlan(s), SettlePlan(t));
    var n := StartIsFirst(s, t);
    assert AreDisjoint(t, s);
    var m := StartIsFirst(t, s);
    if StartApart(SettlePlan(s), SettlePlan(t)) {
      var i: nat, j: nat :| IsFirst(SettlePlan(s), SettlePlan(t), i) && IsFirst(SettlePlan(t), SettlePlan(s), j)
                            && SettlePlan(s)[i].row != SettlePlan(t)[j].row;
      OneFirst(SettlePlan(s), SettlePlan(t), i, n);
      OneFirst(SettlePlan(t), SettlePlan(s), j, m);
    }
  }

  lemma OneFirst(plan: seq<Lock>, other: seq<Lock>, i: nat, n: nat)
    requires IsFirst(plan, other, i) && IsFirst(plan, other, n)
    ensures i == n
  {
  }

  /** One funder is not enough: a settlement that pays a wager first and one that
      first visits a parlay they share can deadlock though the same member funds
      everything. */
  lemma SharedParlayCanDeadlock(s: Settlement, t: Settlement)
    requires AreDisjoint(s, t) && s.users != [] && t.users == [] && t.visits != []
    requires s.users[0] in Funders(t) && Wants(s, StartRow(t))
    ensures CanDeadlock(SettlePlan(s), SettlePlan(t))
  {
    SettlementsDeadlockExactly(s, t);
  }

  /** Settlements that first pay the same member are let through one at a time. */
  lemma SameFirstFunderNeverDeadlocks(s: Settlement, t: Settlement)
    requires AreDisjoint(s, t) && s.users != [] && t.users != [] && s.users[0] == t.users[0]
    ensures !CanDeadlock(SettlePlan(s), SettlePlan(t))
  {
    assert Funders(s)[0] == s.users[0] && Funders(t)[0] == t.users[0];
    SettlementsDeadlockExactly(s, t);
  }

  // ---- Parlays visited in any order ---------------------------------------------------------------

  ghost predicate Enumerates(ids: seq<Id>, parlays: set<Id>) {
    && (forall i, j :: 0 <= i < j < |ids| ==> ids[i] != ids[j])
    && (forall id :: id in ids <==> id in parlays)
  }

  function Unpaid(ids: seq<Id>): (r: seq<Visit>)
    ensures |r| == |ids| && forall i :: 0 <= i < |ids| ==> r[i] == Visit(ids[i], None)
  {
    seq(|ids|, i requires 0 <= i < |ids| => Visit(ids[i], None))
  }

  /** A settlement that pays no wager, before it is given its visits. */
  predicate PaysNoWager(s: Settlement) {
    s.users == [] && s.visits == []
  }

  /** Some visiting orders of the two sets of parlays let the settlements deadlock. */
  ghost predicate OrdersCanDeadlock(s: Settlement, ps: set<Id>, t: Settlement, qs: set<Id>) {
    exists xs, ys :: Enumerates(xs, ps) && Enumerates(ys, qs)
      && CanDeadlock(SettlePlan(s.(visits := Unpaid(xs))), SettlePlan(t.(visits := Unpaid(ys))))
  }

  lemma {:induction false} SomeOrder(parlays: set<Id>) returns (ids: seq<Id>)
    ensures Enumerates(ids, parlays)
    decreases parlays
  {
    if parlays == {} {
      ids := [];
    } else {
      var x :| x in parlays;
      var rest := SomeOrder(parlays - {x});
      ids := [x] + rest;
    }
  }

  lemma OrderFrom(parlays: set<Id>, x: Id) returns (ids: seq<Id>)
    requires x in parlays
    ensures Enumerates(ids, parlays) && ids[0] == x
  {
    var rest := SomeOrder(parlays - {x});
    ids := [x] + rest;
  }

  lemma {:induction false} UnpaidPayNobody(ids: seq<Id>)
    ensures PaidBy(Unpaid(ids)) == []
  {
    if ids != [] {
      UnpaidPayNobody(ids[..|ids| - 1]);
      assert Unpaid(ids)[..|ids| - 1] == Unpaid(ids[..|ids| - 1]);
    }
  }

  /** The only row such a settlement has in common with another is a parlay. */
  lemma VisitsMeetAtParlays(s: Settlement, xs: seq<Id>, t: Settlement, i: nat)
    requires s.users == [] && AreDisjoint(s, t)
    requires var plan := SettlePlan(s.(visits := Unpaid(xs))); i < |plan| && IsContended(plan[i], SettlePlan(t))
    ensures var row := SettlePlan(s.(visits := Unpaid(xs)))[i].row; row.ParlayRow? && row.id in xs && Wants(t, row)
  {
    var u := s.(visits := Unpaid(xs));
    UnpaidPayNobody(xs);
    SettlementIsGated(u);
    PlanIsOwn(u);
    PlanIsOwn(t);
    if IsPrivate(SettlePlan(u)[i].row) {
      PrivateIsNotContended(u, t, i);
    }
    assert IsOwnLock(u, SettlePlan(u)[i]);
    var k :| 0 <= k < |SettlePlan(t)| && Conflicts(SettlePlan(u)[i], SettlePlan(t)[k]);
    assert IsOwnLock(t, SettlePlan(t)[k]);
  }

  /** Settlements that pay nothing deadlock over the order of their visits exactly
      when they share two parlays, whoever funds anything. */
  lemma VisitOrdersDeadlockExactly(s: Settlement, ps: set<Id>, t: Settlement, qs: set<Id>)
    requires PaysNoWager(s) && PaysNoWager(t) && AreDisjoint(s, t)
    ensures OrdersCanDeadlock(s, ps, t, qs) <==> exists x, y :: x in ps * qs && y in ps * qs && x != y
  {
    if OrdersCanDeadlock(s, ps, t, qs) {
      var xs, ys :| Enumerates(xs, ps) && Enumerates(ys, qs)
        && CanDeadlock(SettlePlan(s.(visits := Unpaid(xs))), SettlePlan(t.(visits := Unpaid(ys))));
      var x, y := SharedParlays(s, xs, t, ys);
      assert x in ps * qs && y in ps * qs;
    }
    if x, y :| x in ps * qs && y in ps * qs && x != y {
      var xs := OrderFrom(ps, x);
      var ys := OrderFrom(qs, y);
      CrossedVisits(s, xs, t, ys);
    }
  }

  lemma SharedParlays(s: Settlement, xs: seq<Id>, t: Settlement, ys: seq<Id>) returns (x: Id, y: Id)
    requires PaysNoWager(s) && PaysNoWager(t) && AreDisjoint(s, t)
    requires CanDeadlock(SettlePlan(s.(visits := Unpaid(xs))), SettlePlan(t.(visits := Unpaid(ys))))
    ensures x in xs && x in ys && y in xs && y in ys && x != y
  {
    var u, v := s.(visits := Unpaid(xs)), t.(visits := Unpaid(ys));
    SettlementKeepsModes(u);
    SettlementKeepsModes(v);
    TwoDeadlockExactly(SettlePlan(u), SettlePlan(v));
    var i: nat, j: nat :| IsFirst(SettlePlan(u), SettlePlan(v), i) && IsFirst(SettlePlan(v), SettlePlan(u), j)
                          && SettlePlan(u)[i].row != SettlePlan(v)[j].row;
    VisitsMeetAtParlays(s, xs, v, i);
    VisitsMeetAtParlays(t, ys, u, j);
    x, y := SettlePlan(u)[i].row.id, SettlePlan(v)[j].row.id;
  }

  lemma CrossedVisits(s: Settlement, xs: seq<Id>, t: Settlement, ys: seq<Id>)
    requires PaysNoWager(s) && PaysNoWager(t) && AreDisjoint(s, t)
    requires xs != [] && ys != [] && xs[0] != ys[0] && xs[0] in ys && ys[0] in xs
    ensures CanDeadlock(SettlePlan(s.(visits := Unpaid(xs))), SettlePlan(t.(visits := Unpaid(ys))))
  {
    var u, v := s.(visits := Unpaid(xs)), t.(visits := Unpaid(ys));
    var k :| 0 <= k < |ys| && ys[k] == xs[0];
    var l :| 0 <= l < |xs| && xs[l] == ys[0];
    assert v.visits[k] in v.visits && u.visits[l] in u.visits;
    assert AreDisjoint(u, v);
    SettlementsDeadlockExactly(u, v);
  }
}
