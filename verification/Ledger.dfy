/** Integer money, American odds and balanced postings (internal/ledger). */
module Ledger {
  import opened Results

  type Id = nat

  const MAX_INT64 := 0x7FFF_FFFF_FFFF_FFFF
  const MIN_INT64 := -0x8000_0000_0000_0000

  predicate IsInt64(x: int) {
    MIN_INT64 <= x <= MAX_INT64
  }

  datatype Currency = Currency(code: string)

  datatype Money = Money(cents: int, currency: Currency)

  /** Money.Add: refuses mixed currencies and results outside int64. */
  function Add(a: Money, b: Money): Result<Money> {
    if a.currency != b.currency then Err(Invalid)
    else if !IsInt64(a.cents + b.cents) then Err(Overflow)
    else Ok(Money(a.cents + b.cents, a.currency))
  }

  // ---- American odds -------------------------------------------------------

  predicate ValidOdds(odds: int) {
    odds <= -100 || odds >= 100
  }

  /** Profit per unit stake as the exact fraction numerator / denominator. */
  function PayoutRatio(odds: int): (r: (int, int))
    requires ValidOdds(odds)
    ensures r.0 >= 100 && r.1 >= 100
  {
    if odds > 0 then (odds, 100) else (100, -odds)
  }

  /** AmericanOdds.Profit: integer arithmetic only, half a cent rounds up. */
  function Profit(odds: int, stake: int): Result<int> {
    if !ValidOdds(odds) then Err(InvalidOdds)
    else if stake <= 0 then Err(InvalidStake)
    else
      var (numerator, denominator) := PayoutRatio(odds);
      if stake > MAX_INT64 / numerator then Err(Overflow)
      else
        var product := stake * numerator;
        var profit := product / denominator;
        if product % denominator >= (denominator + 1) / 2 then
          if profit == MAX_INT64 then Err(Overflow) else Ok(profit + 1)
        else
          Ok(profit)
  }

  /** `profit` is stake * ratio rounded to the nearest cent, exact halves up. */
  predicate IsNearestCent(odds: int, stake: int, profit: int)
    requires ValidOdds(odds)
  {
    var (numerator, denominator) := PayoutRatio(odds);
    && 2 * (stake * numerator) - denominator < 2 * (denominator * profit)
    && 2 * (denominator * profit) <= 2 * (stake * numerator) + denominator
  }

  lemma DivisionFacts(product: nat, denominator: nat)
    requires denominator > 0
    ensures product == denominator * (product / denominator) + product % denominator
    ensures 0 <= product / denominator
    ensures 100 <= denominator ==> 100 * (product / denominator) <= product
  {
    var whole := product / denominator;
    if 100 <= denominator {
      ProductMonotone(whole, 100, denominator);
    }
  }

  lemma ProductMonotone(factor: nat, small: nat, large: nat)
    requires small <= large
    ensures factor * small <= factor * large
    ensures small * factor <= large * factor
  {
  }

  lemma RoundedDivision(product: nat, denominator: nat)
    requires denominator >= 100
    ensures var whole := product / denominator;
      var rounded := if product % denominator >= (denominator + 1) / 2 then whole + 1 else whole;
      && 0 <= rounded
      && 2 * product - denominator < 2 * (denominator * rounded)
      && 2 * (denominator * rounded) <= 2 * product + denominator
  {
    DivisionFacts(product, denominator);
    var whole := product / denominator;
    assert denominator * (whole + 1) == denominator * whole + denominator;
  }

  lemma ProfitIsNearestCent(odds: int, stake: int)
    requires Profit(odds, stake).Ok?
    ensures ValidOdds(odds) && stake > 0 && Profit(odds, stake).value >= 0
    ensures IsNearestCent(odds, stake, Profit(odds, stake).value)
  {
    var (numerator, denominator) := PayoutRatio(odds);
    ProductMonotone(stake, 0, numerator);
    RoundedDivision(stake * numerator, denominator);
  }

  /** On valid input Profit fails exactly when stake * numerator leaves int64;
      its second overflow guard is never taken. */
  lemma ProfitFailsExactlyOnOverflow(odds: int, stake: int)
    requires ValidOdds(odds) && stake > 0
    ensures Profit(odds, stake).Ok? <==> stake * PayoutRatio(odds).0 <= MAX_INT64
  {
    var (numerator, denominator) := PayoutRatio(odds);
    var limit := MAX_INT64 / numerator;
    DivisionFacts(MAX_INT64, numerator);
    if stake > limit {
      ProductMonotone(numerator, limit + 1, stake);
      assert numerator * (limit + 1) == numerator * limit + numerator;
    } else {
      ProductMonotone(numerator, stake, limit);
      ProductMonotone(stake, 0, numerator);
      DivisionFacts(stake * numerator, denominator);
    }
  }

  /** The profit as one division: half a cent rounds up. */
  function NearestCents(odds: int, stake: int): int
    requires ValidOdds(odds)
  {
    var (numerator, denominator) := PayoutRatio(odds);
    (2 * (stake * numerator) + denominator) / (2 * denominator)
  }

  /** A stake and its profit at these odds stay within int64. */
  predicate PaysWithin(odds: int, stake: int) {
    && ValidOdds(odds)
    && stake * PayoutRatio(odds).0 <= MAX_INT64
    && stake + NearestCents(odds, stake) <= MAX_INT64
  }

  /** The profit rounds up to at least a cent. */
  predicate PaysSomething(odds: int, stake: int) {
    ValidOdds(odds) && 2 * (stake * PayoutRatio(odds).0) >= PayoutRatio(odds).1
  }

  /** `profit` is what `stake` earns at `line`, to the nearest cent with halves up. */
  predicate EarnsAt(line: int, stake: int, profit: int) {
    if line > 0 then 2 * (stake * line) - 100 < 200 * profit <= 2 * (stake * line) + 100
    else 200 * stake + line < 2 * (-line * profit) <= 200 * stake - line
  }

  /** A wager can be struck at this line: a positive profit within int64. */
  predicate CanStrike(line: int, stake: int) {
    || (line >= 100 && 50 <= stake * line <= MAX_INT64)
    || (line <= -100 && -line <= 200 * stake && stake * 100 <= MAX_INT64)
  }

  /** Profit at a line, from nothing but the line and the stake. */
  lemma ProfitByLine(line: int, stake: int)
    requires stake > 0
    ensures Profit(line, stake).Ok?
      <==> (line >= 100 && stake * line <= 0x7fff_ffff_ffff_ffff) || (line <= -100 && stake * 100 <= 0x7fff_ffff_ffff_ffff)
    ensures Profit(line, stake).Ok? ==> EarnsAt(line, stake, Profit(line, stake).value)
    ensures Profit(line, stake).Ok? ==>
      (Profit(line, stake).value > 0 <==> if line > 0 then stake * line >= 50 else 200 * stake >= -line)
  {
    if ValidOdds(line) {
      ProfitFailsExactlyOnOverflow(line, stake);
      if Profit(line, stake).Ok? {
        ProfitIsNearestCent(line, stake);
        ProfitExactly(line, stake);
      }
    }
  }

  /** The stake's exact earnings round to no more than the ceiling. */
  predicate EarnsAtMost(line: int, stake: int, ceiling: int) {
    if line > 0 then 2 * (stake * line) < 200 * ceiling + 100 else 200 * stake < -line * (2 * ceiling) - line
  }

  lemma EarnsAtMostExactly(line: int, stake: int, ceiling: nat)
    requires stake > 0 && Profit(line, stake).Ok?
    ensures Profit(line, stake).value <= ceiling <==> EarnsAtMost(line, stake, ceiling)
  {
    ProfitByLine(line, stake);
    ProfitIsNearestCent(line, stake);
    if line < 0 {
      CeilingOrder(-line, Profit(line, stake).value, ceiling);
    }
  }

  lemma CeilingOrder(d: nat, p: nat, ceiling: nat)
    requires d > 0
    ensures p <= ceiling ==> 2 * (d * p) <= d * (2 * ceiling)
    ensures p > ceiling ==> 2 * (d * p) >= d * (2 * ceiling) + 2 * d
  {
    if p <= ceiling {
      ProductMonotone(d, 2 * p, 2 * ceiling);
    } else {
      ProductMonotone(d, 2 * ceiling + 2, 2 * p);
    }
    assert d * (2 * p) == 2 * (d * p);
    assert d * (2 * ceiling + 2) == d * (2 * ceiling) + 2 * d;
  }

  lemma NearestIsUnique(twice: nat, denominator: nat, p: nat)
    requires denominator >= 100
    requires twice - denominator < 2 * (denominator * p) <= twice + denominator
    ensures p == (twice + denominator) / (2 * denominator)
    ensures p > 0 <==> twice >= denominator
  {
    var x, d := twice + denominator, 2 * denominator;
    assert d * p == 2 * (denominator * p);
    assert d * (p + 1) == d * p + d;
    assert d * p <= x < d * (p + 1);
    QuotientIs(x, d, p);
    if p > 0 {
      ProductMonotone(denominator, 1, p);
    }
  }

  lemma QuotientIs(x: nat, d: nat, p: nat)
    requires d > 0 && d * p <= x < d * p + d
    ensures x / d == p
  {
    DivisionFacts(x, d);
    var q := x / d;
    OneStepApart(d, q, p);
    OneStepApart(d, p, q);
  }

  lemma OneStepApart(d: nat, small: nat, large: nat)
    ensures small < large ==> d * small + d <= d * large
  {
    if small < large {
      ProductMonotone(d, small + 1, large);
      assert d * (small + 1) == d * small + d;
    }
  }

  /** Profit in terms of its arguments alone. */
  lemma ProfitExactly(odds: int, stake: int)
    requires ValidOdds(odds) && stake > 0
    ensures Profit(odds, stake).Ok? && stake + Profit(odds, stake).value <= MAX_INT64 <==> PaysWithin(odds, stake)
    ensures Profit(odds, stake).Ok? ==> Profit(odds, stake).value == NearestCents(odds, stake)
    ensures Profit(odds, stake).Ok? ==> (Profit(odds, stake).value > 0 <==> PaysSomething(odds, stake))
  {
    ProfitFailsExactlyOnOverflow(odds, stake);
    if Profit(odds, stake).Ok? {
      ProfitIsNearestCent(odds, stake);
      var (numerator, denominator) := PayoutRatio(odds);
      ProductMonotone(stake, 0, numerator);
      NearestIsUnique(2 * (stake * numerator), denominator, Profit(odds, stake).value);
    }
  }

  lemma ProfitMonotone(odds: int, small: int, large: int)
    requires 0 < small <= large
    requires Profit(odds, large).Ok?
    ensures Profit(odds, small).Ok?
    ensures Profit(odds, small).value <= Profit(odds, large).value
  {
    var (numerator, denominator) := PayoutRatio(odds);
    ProductMonotone(numerator, small, large);
    ProfitFailsExactlyOnOverflow(odds, large);
    ProfitFailsExactlyOnOverflow(odds, small);
    ProfitIsNearestCent(odds, small);
    ProfitIsNearestCent(odds, large);
    RoundedOrder(denominator, small * numerator, large * numerator,
                 Profit(odds, small).value, Profit(odds, large).value);
  }

  lemma RoundedOrder(denominator: nat, small: nat, large: nat, p: nat, q: nat)
    requires denominator > 0 && small <= large
    requires 2 * (denominator * p) <= 2 * small + denominator
    requires 2 * large - denominator < 2 * (denominator * q)
    ensures p <= q
  {
    assert denominator * (q + 1) == denominator * q + denominator;
    if q + 1 <= p {
      ProductMonotone(denominator, q + 1, p);
    }
  }

  // ---- Accounts and postings -----------------------------------------------

  datatype Funding = Cash | FreePlay

  datatype Account =
    | Member(user: Id, funding: Funding, currency: Currency)
    | Escrow(currency: Currency)
    | House(currency: Currency)

  datatype Posting = Posting(account: Account, amount: Money)

  function Net(postings: seq<Posting>): int {
    if postings == [] then 0
    else Net(postings[..|postings| - 1]) + postings[|postings| - 1].amount.cents
  }

  function PostedTo(posting: Posting, account: Account): int {
    if posting.account == account then posting.amount.cents else 0
  }

  /** What `postings` move into `account`. */
  function NetTo(postings: seq<Posting>, account: Account): int {
    if postings == [] then 0
    else NetTo(postings[..|postings| - 1], account) + PostedTo(postings[|postings| - 1], account)
  }

  predicate DistinctAccounts(postings: seq<Posting>) {
    forall i, j :: 0 <= i < j < |postings| ==> postings[i].account != postings[j].account
  }

  /** The ledger constraint: two or more non-zero single-currency postings on
      distinct accounts, summing to zero without leaving int64 on the way. */
  predicate ValidPostings(currency: Currency, postings: seq<Posting>) {
    && |postings| >= 2
    && DistinctAccounts(postings)
    && (forall i :: 0 <= i < |postings| ==> postings[i].amount.currency == currency && postings[i].amount.cents != 0)
    && (forall i :: 0 <= i <= |postings| ==> IsInt64(Net(postings[..i])))
    && Net(postings) == 0
  }

  method ValidatePostings(currency: Currency, postings: seq<Posting>) returns (verdict: Result<()>)
    ensures verdict.Ok? <==> ValidPostings(currency, postings)
    ensures verdict.Ok? <==>
      && |postings| >= 2 && (forall i, j :: 0 <= i < j < |postings| ==> postings[i].account != postings[j].account)
      && (forall i :: 0 <= i < |postings| ==> postings[i].amount.currency == currency && postings[i].amount.cents != 0)
      && (forall i :: 0 <= i <= |postings| ==> MIN_INT64 <= Net(postings[..i]) <= MAX_INT64) && Net(postings) == 0
    ensures verdict == Err(Overflow) ==> exists i :: 0 <= i <= |postings| && !IsInt64(Net(postings[..i]))
  {
    if |postings| < 2 {
      return Err(Unbalanced);
    }
    var seen: set<Account> := {};
    var sum := 0;
    for i := 0 to |postings|
      invariant seen == set k | 0 <= k < i :: postings[k].account
      invariant DistinctAccounts(postings[..i])
      invariant forall k :: 0 <= k < i ==> postings[k].amount.currency == currency && postings[k].amount.cents != 0
      invariant forall k :: 0 <= k <= i ==> IsInt64(Net(postings[..k]))
      invariant sum == Net(postings[..i])
    {
      var posting := postings[i];
      if posting.account in seen {
        return Err(Invalid);
      }
      seen := seen + {posting.account};
      if posting.amount.currency != currency || posting.amount.cents == 0 {
        return Err(Invalid);
      }
      assert postings[..i + 1][..i] == postings[..i];
      if !IsInt64(sum + posting.amount.cents) {
        return Err(Overflow);
      }
      sum := sum + posting.amount.cents;
    }
    assert postings[..|postings|] == postings;
    if sum != 0 {
      return Err(Unbalanced);
    }
    return Ok(());
  }

  lemma TwoPostings(a: Posting, b: Posting)
    ensures Net([a, b]) == a.amount.cents + b.amount.cents
    ensures forall x :: NetTo([a, b], x) == PostedTo(a, x) + PostedTo(b, x)
  {
    assert [a, b][..1] == [a] && [a][..0] == [];
    assert Net([a]) == Net([a][..0]) + a.amount.cents;
    forall x ensures NetTo([a, b], x) == PostedTo(a, x) + PostedTo(b, x) {
      assert NetTo([a], x) == NetTo([a][..0], x) + PostedTo(a, x);
      assert NetTo([a, b], x) == NetTo([a, b][..1], x) + PostedTo(b, x);
    }
  }

  lemma ThreePostings(a: Posting, b: Posting, c: Posting)
    ensures Net([a, b, c]) == a.amount.cents + b.amount.cents + c.amount.cents
    ensures forall x :: NetTo([a, b, c], x) == PostedTo(a, x) + PostedTo(b, x) + PostedTo(c, x)
  {
    assert [a, b, c][..2] == [a, b];
    TwoPostings(a, b);
  }

  lemma TwoPostingsValid(currency: Currency, a: Posting, b: Posting)
    requires a.account != b.account && a.amount.currency == b.amount.currency == currency
    requires a.amount.cents != 0 && a.amount.cents + b.amount.cents == 0
    requires IsInt64(a.amount.cents)
    ensures ValidPostings(currency, [a, b])
  {
    TwoPostings(a, b);
    assert [a, b][..1] == [a] && [a][..0] == [] && [a, b][..2] == [a, b] && [a, b][..0] == [];
  }

  lemma ThreePostingsValid(currency: Currency, a: Posting, b: Posting, c: Posting)
    requires a.account != b.account && a.account != c.account && b.account != c.account
    requires a.amount.currency == b.amount.currency == c.amount.currency == currency
    requires a.amount.cents != 0 && b.amount.cents != 0 && c.amount.cents != 0
    requires a.amount.cents + b.amount.cents + c.amount.cents == 0
    requires IsInt64(a.amount.cents) && IsInt64(a.amount.cents + b.amount.cents)
    ensures ValidPostings(currency, [a, b, c])
  {
    var s := [a, b, c];
    ThreePostings(a, b, c);
    TwoPostings(a, b);
    assert s[..0] == [] && s[..1] == [a] && s[..2] == [a, b] && s[..3] == s && [a][..0] == [];
  }
}
