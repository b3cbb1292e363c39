/** The settle-up page (internal/bettingweb): the suggested direction and
    amount, as text, and what recording them does. */
module SettleUp {
  import opened Results
  import opened Ledger
  import opened Text
  import opened BookState
  import opened Dashboard

  const MAX_PARSED := 999_999_999

  // ---- Digits -------------------------------------------------------------------------

  predicate IsDigit(c: char) {
    '0' <= c <= '9'
  }

  function DigitOf(n: nat): char
    requires n < 10
  {
    '0' + n as char
  }

  function ValueOf(c: char): nat
    requires IsDigit(c)
  {
    (c - '0') as nat
  }

  predicate AllDigits(s: string) {
    forall i :: 0 <= i < |s| ==> IsDigit(s[i])
  }

  function Decimal(n: nat): (s: string)
    ensures s != [] && AllDigits(s)
  {
    if n < 10 then [DigitOf(n)] else Decimal(n / 10) + [DigitOf(n % 10)]
  }

  function ParseDecimal(s: string): nat
    requires AllDigits(s)
  {
    if s == [] then 0 else 10 * ParseDecimal(s[..|s| - 1]) + ValueOf(s[|s| - 1])
  }

  lemma {:induction false} DecimalParses(n: nat)
    ensures ParseDecimal(Decimal(n)) == n
  {
    if n >= 10 {
      DecimalParses(n / 10);
      assert Decimal(n)[..|Decimal(n)| - 1] == Decimal(n / 10);
    }
  }

  function Pow10(k: nat): nat {
    if k == 0 then 1 else 10 * Pow10(k - 1)
  }

  lemma {:induction false} DecimalLength(n: nat, k: nat)
    requires k >= 1
    ensures |Decimal(n)| <= k <==> n < Pow10(k)
    decreases k
  {
    if n >= 10 && k > 1 {
      DecimalLength(n / 10, k - 1);
    } else if n < 10 {
      PowGrows(k);
    }
  }

  lemma {:induction false} PowGrows(k: nat)
    requires k >= 1
    ensures Pow10(k) >= 10
  {
    if k > 1 {
      PowGrows(k - 1);
    }
  }

  lemma {:induction false} ParseBelow(s: string)
    requires AllDigits(s)
    ensures ParseDecimal(s) < Pow10(|s|)
  {
    if s != [] {
      ParseBelow(s[..|s| - 1]);
    }
  }

  // ---- Formatting -------------------------------------------------------------------------

  /** "%d.%02d" of whole dollars and cents; negative amounts show as zero. */
  function FormatCentsDollars(cents: int): string {
    var shown := if cents < 0 then 0 else cents;
    Decimal(shown / 100) + "." + [DigitOf(shown % 100 / 10), DigitOf(shown % 10)]
  }

  // ---- Parsing ---------------------------------------------------------------------------

  /** How many digits `s` starts with. */
  function LeadingDigits(s: string): (n: nat)
    ensures n <= |s| && AllDigits(s[..n])
  {
    if s == [] || !IsDigit(s[0]) then 0 else 1 + LeadingDigits(s[1..])
  }

  function WithoutDollar(s: string): string {
    if s != [] && s[0] == '$' then s[1..] else s
  }

  /** The cents after the point: one digit counts tens. */
  function FractionCents(s: string): Option<nat> {
    if s == [] then Some(0)
    else if s[0] != '.' then None
    else
      var digits := s[1..];
      if !(1 <= |digits| <= 2) || !AllDigits(digits) then None
      else Some(if |digits| == 1 then 10 * ParseDecimal(digits) else ParseDecimal(digits))
  }

  /** parseStakeCents: an optional dollar sign, one to seven digits, and an
      optional point with one or two more; zero is refused. */
  function ParseStakeCents(value: string): Result<int> {
    var s := WithoutDollar(Trim(value));
    var n := LeadingDigits(s);
    AmountOf(s[..n], s[n..])
  }

  /** The matched digits before the point, and what follows them. */
  function AmountOf(dollars: string, fraction: string): Result<int>
    requires AllDigits(dollars)
  {
    if !(1 <= |dollars| <= 7) then Err(Invalid)
    else
      match FractionCents(fraction)
      case None => Err(Invalid)
      case Some(cents) =>
        var total := 100 * ParseDecimal(dollars) + cents;
        if total <= 0 then Err(InvalidStake) else Ok(total)
  }

  // ---- The round trip ------------------------------------------------------------------------

  lemma {:induction false} LeadingDigitsOf(digits: string, rest: string)
    requires AllDigits(digits) && (rest == [] || !IsDigit(rest[0]))
    ensures LeadingDigits(digits + rest) == |digits|
  {
    if digits == [] {
      assert digits + rest == rest;
    } else {
      assert (digits + rest)[1..] == digits[1..] + rest;
      LeadingDigitsOf(digits[1..], rest);
    }
  }

  lemma TwoDigits(a: nat, b: nat)
    requires a < 10 && b < 10
    ensures AllDigits([DigitOf(a), DigitOf(b)]) && ParseDecimal([DigitOf(a), DigitOf(b)]) == 10 * a + b
  {
    var s := [DigitOf(a), DigitOf(b)];
    assert s[..1] == [DigitOf(a)] && s[..1][..0] == [];
    assert ParseDecimal(s[..1]) == 10 * ParseDecimal(s[..1][..0]) + a;
  }

  lemma FormatShape(cents: nat) returns (dollars: string, fraction: string)
    ensures FormatCentsDollars(cents) == dollars + fraction
    ensures dollars == Decimal(cents / 100) && |fraction| == 3 && fraction[0] == '.'
    ensures FractionCents(fraction) == Some(cents % 100)
  {
    dollars := Decimal(cents / 100);
    var digits := [DigitOf(cents % 100 / 10), DigitOf(cents % 10)];
    fraction := "." + digits;
    assert fraction[1..] == digits;
    TwoDigits(cents % 100 / 10, cents % 10);
  }

  lemma NothingToTrim(s: string)
    requires s != [] && IsDigit(s[0]) && IsDigit(s[|s| - 1])
    ensures WithoutDollar(Trim(s)) == s
  {
    assert TrimLeft(s) == s && TrimRight(s) == s;
  }

  lemma FractionEndsInDigit(fraction: string)
    requires |fraction| == 3 && FractionCents(fraction).Some?
    ensures IsDigit(fraction[2])
  {
    assert fraction[1..][1] == fraction[2];
  }

  /** A text of digits and a fraction parses as those two parts. */
  lemma ParseOfShape(dollars: string, fraction: string)
    requires dollars != [] && AllDigits(dollars) && |fraction| == 3 && fraction[0] == '.' && IsDigit(fraction[2])
    ensures ParseStakeCents(dollars + fraction) == AmountOf(dollars, fraction)
  {
    var s := dollars + fraction;
    assert s[0] == dollars[0] && s[|s| - 1] == fraction[2];
    NothingToTrim(s);
    LeadingDigitsOf(dollars, fraction);
    assert s[..|dollars|] == dollars && s[|dollars|..] == fraction;
  }

  lemma ParseOfFormat(cents: nat)
    ensures ParseStakeCents(FormatCentsDollars(cents)).Ok? <==> 1 <= cents <= MAX_PARSED
    ensures 1 <= cents <= MAX_PARSED ==> ParseStakeCents(FormatCentsDollars(cents)) == Ok(cents)
  {
    var dollars, fraction := FormatShape(cents);
    DecimalParses(cents / 100);
    DecimalLength(cents / 100, 7);
    SevenDigits();
    FractionEndsInDigit(fraction);
    ParseOfShape(dollars, fraction);
    assert AmountOf(dollars, fraction).Ok? ==> AmountOf(dollars, fraction) == Ok(cents);
  }

  /** One to seven digits, and after them nothing or a point and one or two more. */
  predicate IsAmount(dollars: string, fraction: string) {
    && 1 <= |dollars| <= 7 && AllDigits(dollars)
    && (fraction == "" || (2 <= |fraction| <= 3 && fraction[0] == '.' && AllDigits(fraction[1..])))
  }

  /** Whole dollars, and a lone digit after the point as tens of cents. */
  function AmountCents(dollars: string, fraction: string): int
    requires IsAmount(dollars, fraction)
  {
    100 * ParseDecimal(dollars)
      + if fraction == "" then 0 else if |fraction| == 2 then 10 * ParseDecimal(fraction[1..]) else ParseDecimal(fraction[1..])
  }

  /** A text parses exactly when, trimmed and without one dollar sign, it is such
      an amount and not zero; and then to that many cents. */
  lemma ParsesExactly(value: string, dollars: string, fraction: string)
    requires WithoutDollar(Trim(value)) == dollars + fraction && IsAmount(dollars, fraction)
    ensures ParseStakeCents(value) == if AmountCents(dollars, fraction) > 0 then Ok(AmountCents(dollars, fraction)) else Err(InvalidStake)
  {
    LeadingDigitsOf(dollars, fraction);
    var s := dollars + fraction;
    assert s[..|dollars|] == dollars && s[|dollars|..] == fraction;
  }

  lemma OnlyAmountsParse(value: string) returns (dollars: string, fraction: string)
    requires ParseStakeCents(value).Ok?
    ensures WithoutDollar(Trim(value)) == dollars + fraction && IsAmount(dollars, fraction)
  {
    var s := WithoutDollar(Trim(value));
    var n := LeadingDigits(s);
    dollars, fraction := s[..n], s[n..];
  }

  /** Parsing undoes formatting exactly on 1 to 999,999,999 cents. */
  lemma FormatParses(cents: int)
    ensures ParseStakeCents(FormatCentsDollars(cents)) == Ok(cents) <==> 1 <= cents <= MAX_PARSED
  {
    ParseOfFormat(if cents < 0 then 0 else cents);
    assert cents < 0 ==> FormatCentsDollars(cents) == FormatCentsDollars(0);
  }

  lemma SevenDigits()
    ensures Pow10(7) == 10_000_000
  {
    assert Pow10(1) == 10 && Pow10(2) == 100 && Pow10(3) == 1000 && Pow10(4) == 10_000;
  }

  lemma {:induction false} PowMonotone(j: nat, k: nat)
    requires j <= k
    ensures Pow10(j) <= Pow10(k)
  {
    if j < k {
      PowMonotone(j, k - 1);
    }
  }

  /** Every accepted text is an amount that formatting writes back to itself. */
  lemma ParsedIsInRange(value: string)
    requires ParseStakeCents(value).Ok?
    ensures 1 <= ParseStakeCents(value).value <= MAX_PARSED
    ensures ParseStakeCents(FormatCentsDollars(ParseStakeCents(value).value)) == ParseStakeCents(value)
  {
    var s := WithoutDollar(Trim(value));
    var n := LeadingDigits(s);
    ParseBelow(s[..n]);
    PowMonotone(n, 7);
    SevenDigits();
    var rest := s[n..];
    if rest != [] {
      var digits := rest[1..];
      ParseBelow(digits);
      assert Pow10(0) == 1 && Pow10(1) == 10 && Pow10(2) == 100;
    }
    FormatParses(ParseStakeCents(value).value);
  }

  // ---- The page ---------------------------------------------------------------------------------

  datatype BalanceRow = BalanceRow(user: Id, cents: int)

  datatype SettleUpView = SettleUpView(row: BalanceRow, direction: Direction, amount: string)

  function ViewOf(row: BalanceRow): SettleUpView {
    if row.cents < 0 then SettleUpView(row, PaymentReceived, FormatCentsDollars(-row.cents))
    else SettleUpView(row, PayoutSent, FormatCentsDollars(row.cents))
  }

  method SettleUpViews(balances: seq<BalanceRow>) returns (views: seq<SettleUpView>)
    ensures |views| == |balances| && forall i :: 0 <= i < |balances| ==> views[i] == ViewOf(balances[i])
  {
    views := [];
    for i := 0 to |balances|
      invariant |views| == i && forall k :: 0 <= k < i ==> views[k] == ViewOf(balances[k])
    {
      var cents, direction := balances[i].cents, PayoutSent;
      if cents < 0 {
        direction := PaymentReceived;
        cents := -cents;
      }
      views := views + [SettleUpView(balances[i], direction, FormatCentsDollars(cents))];
    }
  }

  /** Submitting the suggested form: parse the amount, then record it. */
  function SubmitView(b: Book, id: Id, view: SettleUpView, currency: Currency): Result<Book> {
    var cents :- ParseStakeCents(view.amount);
    RecordSettlement(b, id, view.row.user, view.direction, Money(cents, currency))
  }

  /** For a balance the form can hold, posting the suggested direction and amount
      brings the member's cash balance to exactly zero. */
  lemma SuggestionClearsTheBalance(ops: seq<Op>, id: Id, user: Id, currency: Currency)
    requires !HasKey(Run(ops).log, Adjustment(id))
    ensures var b := Run(ops);
      var cents := Balance(b, Member(user, Cash, currency));
      1 <= cents <= MAX_PARSED || 1 <= -cents <= MAX_PARSED ==>
        Clears(b, SubmitView(b, id, ViewOf(BalanceRow(user, cents)), currency), user, currency, cents)
  {
    var cents := Balance(Run(ops), Member(user, Cash, currency));
    if 1 <= cents <= MAX_PARSED || 1 <= -cents <= MAX_PARSED {
      SuggestionClears(Run(ops), id, user, currency, cents);
    }
  }

  /** The posting commits, moves the balance and nothing else, and leaves it at zero. */
  ghost predicate Clears(b: Book, posted: Result<Book>, user: Id, currency: Currency, cents: int) {
    posted.Ok? && Balance(posted.value, Member(user, Cash, currency)) == 0 && Shifts(b, posted.value, user, currency, -cents)
  }

  lemma SuggestionClears(b: Book, id: Id, user: Id, currency: Currency, cents: int)
    requires !HasKey(b.log, Adjustment(id)) && cents == Balance(b, Member(user, Cash, currency))
    requires 1 <= cents <= MAX_PARSED || 1 <= -cents <= MAX_PARSED
    ensures Clears(b, SubmitView(b, id, ViewOf(BalanceRow(user, cents)), currency), user, currency, cents)
  {
    if cents > 0 {
      SuggestedPosting(b, id, user, PayoutSent, Money(cents, currency));
    } else {
      SuggestedPosting(b, id, user, PaymentReceived, Money(-cents, currency));
    }
    var posted := SubmitView(b, id, ViewOf(BalanceRow(user, cents)), currency);
    ShiftClears(b, posted.value, user, currency, cents);
  }

  lemma ShiftClears(b: Book, after: Book, user: Id, currency: Currency, cents: int)
    requires Shifts(b, after, user, currency, -cents)
    ensures Balance(after, Member(user, Cash, currency)) == Balance(b, Member(user, Cash, currency)) - cents
  {
  }

  /** What the form submits is what was shown. */
  lemma SubmittedAsShown(b: Book, id: Id, view: SettleUpView, cents: int, currency: Currency)
    requires 1 <= cents <= MAX_PARSED && view.amount == FormatCentsDollars(cents)
    ensures SubmitView(b, id, view, currency) == RecordSettlement(b, id, view.row.user, view.direction, Money(cents, currency))
  {
    FormatParses(cents);
  }

  lemma SuggestedPosting(b: Book, id: Id, user: Id, direction: Direction, amount: Money)
    requires !HasKey(b.log, Adjustment(id)) && 1 <= amount.cents <= MAX_PARSED
    ensures var view := ViewOf(BalanceRow(user, if direction == PayoutSent then amount.cents else -amount.cents));
      var posted := SubmitView(b, id, view, amount.currency);
      posted.Ok? && Shifts(b, posted.value, user, amount.currency, Signed(direction, amount))
  {
    var view := ViewOf(BalanceRow(user, if direction == PayoutSent then amount.cents else -amount.cents));
    assert view.direction == direction && view.amount == FormatCentsDollars(amount.cents);
    SubmittedAsShown(b, id, view, amount.cents, amount.currency);
    RecordingShifts(b, id, user, direction, amount);
  }

  /** Exactly the balances in that range have a suggestion the form accepts as shown. */
  lemma SuggestionIsAccepted(row: BalanceRow)
    ensures ParseStakeCents(ViewOf(row).amount).Ok? <==> 1 <= row.cents <= MAX_PARSED || 1 <= -row.cents <= MAX_PARSED
  {
    var shown := if row.cents < 0 then -row.cents else row.cents;
    var amount := ViewOf(row).amount;
    assert amount == FormatCentsDollars(shown);
    ParseOfFormat(shown);
  }

  // ---- Line comparison -------------------------------------------------------------------------

  datatype LineMove = Unchanged | ToMember | ToBook

  function Compare(accepted: int, current: int): LineMove
    requires ValidOdds(accepted) && ValidOdds(current)
  {
    if accepted == current then Unchanged
    else
      var (an, ad) := PayoutRatio(accepted);
      var (cn, cd) := PayoutRatio(current);
      if an * cd > cn * ad then ToMember else if an * cd < cn * ad then ToBook else Unchanged
  }

  lemma ScaledUp(stake: nat, n: nat, d: nat, k: nat, q: nat)
    requires k > 0
    ensures 2 * (stake * n) - d < 2 * (d * q) ==> 2 * (stake * (n * k)) - d * k < 2 * (d * k * q)
    ensures 2 * (d * q) <= 2 * (stake * n) + d ==> 2 * (d * k * q) <= 2 * (stake * (n * k)) + d * k
  {
    Regrouped(stake, n, k);
    Regrouped(q, d, k);
    ScaledFloor(stake * n, d * q, d, k);
    ScaledCeiling(stake * n, d * q, d, k);
    assert d * k * q == q * (d * k) && d * q == q * d;
  }

  lemma Regrouped(a: nat, b: nat, k: nat)
    ensures a * (b * k) == (a * b) * k
  {
  }

  lemma ScaledFloor(x: nat, y: nat, d: nat, k: nat)
    requires k > 0
    ensures 2 * x - d < 2 * y ==> 2 * (x * k) - d * k < 2 * (y * k)
  {
    assert (2 * x - d) * k == 2 * (x * k) - d * k && (2 * y) * k == 2 * (y * k);
    ScaledOrder(2 * x - d, 2 * y, k);
  }

  lemma ScaledCeiling(x: nat, y: nat, d: nat, k: nat)
    requires k > 0
    ensures 2 * y <= 2 * x + d ==> 2 * (y * k) <= 2 * (x * k) + d * k
  {
    assert (2 * x + d) * k == 2 * (x * k) + d * k && (2 * y) * k == 2 * (y * k);
    ScaledOrder(2 * x + d, 2 * y, k);
  }

  lemma ScaledOrder(x: int, y: int, k: nat)
    requires k > 0
    ensures x < y <==> x * k < y * k
  {
  }

  lemma CrossRounded(stake: nat, a: (nat, nat), c: (nat, nat), p: nat, q: nat)
    requires a.1 > 0 && c.1 > 0 && c.0 * a.1 <= a.0 * c.1
    requires 2 * (stake * a.0) - a.1 < 2 * (a.1 * p)
    requires 2 * (c.1 * q) <= 2 * (stake * c.0) + c.1
    ensures q <= p
  {
    var both := a.1 * c.1;
    assert both == c.1 * a.1;
    ProductMonotone(stake, c.0 * a.1, a.0 * c.1);
    ScaledUp(stake, a.0, a.1, c.1, p);
    ScaledUp(stake, c.0, c.1, a.1, q);
    BelowNext(both, q, p);
  }

  lemma BelowNext(both: nat, q: nat, p: nat)
    requires both > 0 && 2 * (both * q) < 2 * (both * p) + 2 * both
    ensures q <= p
  {
    assert both * (p + 1) == both * p + both;
    if q >= p + 1 {
      ProductMonotone(both, p + 1, q);
    }
  }

  lemma BetterLinePays(better: int, worse: int, stake: int)
    requires ValidOdds(better) && ValidOdds(worse)
    requires PayoutRatio(worse).0 * PayoutRatio(better).1 <= PayoutRatio(better).0 * PayoutRatio(worse).1
    requires Profit(better, stake).Ok? && Profit(worse, stake).Ok?
    ensures Profit(worse, stake).value <= Profit(better, stake).value
  {
    ProfitIsNearestCent(better, stake);
    ProfitIsNearestCent(worse, stake);
    CrossRounded(stake, PayoutRatio(better), PayoutRatio(worse), Profit(better, stake).value, Profit(worse, stake).value);
  }

  /** A line reported as moved to the member pays at least as much at every
      stake, one moved to the book at most as much, and an unchanged one the
      same; the two directions mirror each other. */
  lemma CompareIsByProfit(accepted: int, current: int, stake: int)
    requires ValidOdds(accepted) && ValidOdds(current)
    requires Profit(accepted, stake).Ok? && Profit(current, stake).Ok?
    ensures match Compare(accepted, current)
      case ToMember => Profit(accepted, stake).value >= Profit(current, stake).value
      case ToBook => Profit(accepted, stake).value <= Profit(current, stake).value
      case Unchanged => Profit(accepted, stake).value == Profit(current, stake).value
    ensures Compare(accepted, current) == ToMember <==> Compare(current, accepted) == ToBook
  {
    var (an, ad) := PayoutRatio(accepted);
    var (cn, cd) := PayoutRatio(current);
    if cn * ad <= an * cd {
      BetterLinePays(accepted, current, stake);
    }
    if an * cd <= cn * ad {
      BetterLinePays(current, accepted, stake);
    }
  }
}
